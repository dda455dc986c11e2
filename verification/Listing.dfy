/** When dispatch is safe: a plan is safe in all runs iff no dependency is first inserted
    after its dependent once something can have started. */
module Listing {
  import opened Prelude
  import opened Graph
  import opened Planner
  import opened Lifecycle
  import opened Runs
  import opened CleanRuns
  import opened CleanTheorems
  import opened Progress
  import opened Dormant
  import opened Deliveries

  // ------------------------------------------------- a half-inserted plan

  lemma {:induction false} KeysAdded(tasks: Tasks, plan: seq<Planned>)
    ensures AddRows(tasks, plan).Keys == tasks.Keys + KeysOf(plan)
  {
    if plan != [] {
      var init, last := plan[..|plan| - 1], plan[|plan| - 1];
      KeysAdded(tasks, init);
      assert forall p :: p in plan <==> p in init || p == last;
    }
  }

  /** The rows of the first n entries, whatever keys repeat. */
  lemma HalfRows(s0: State, scan: ScanId, plan: seq<Planned>, n: nat)
    requires Init(s0) && PlanShape(scan, plan) && n <= |plan|
    ensures HalfSubmitted(s0, scan, plan, n).tasks.Keys == KeysOf(plan[..n])
    ensures forall k | 0 <= k < n ::
              plan[k].id in HalfSubmitted(s0, scan, plan, n).tasks &&
              HalfSubmitted(s0, scan, plan, n).tasks[plan[k].id] == PlannedRow(plan[k])
  {
    KeysAdded(s0.tasks, plan[..n]);
    forall k | 0 <= k < n
      ensures plan[k].id in AddRows(s0.tasks, plan[..n]) && AddRows(s0.tasks, plan[..n])[plan[k].id] == PlannedRow(plan[k])
    {
      assert plan[..n][k] in plan[..n];
      AddedRow(s0.tasks, plan[..n], plan[k].id);
      var p :| p in plan[..n] && p.id == plan[k].id && AddRows(s0.tasks, plan[..n])[plan[k].id] == PlannedRow(p);
      assert p in plan && plan[k] in plan;
    }
  }

  lemma OpenReached(s0: State, scan: ScanId, plan: seq<Planned>, k: nat) returns (acts: seq<Action>)
    requires Init(s0) && plan != [] && PlanShape(scan, plan) && k <= |plan|
    ensures Exec(s0, acts, HalfSubmitted(s0, scan, plan, k))
  {
    BeginSubmit(s0, scan, plan);
    var inserts := SubmitRun(s0, scan, plan, k);
    ExecCons(s0, Begin(scan, plan), HalfSubmitted(s0, scan, plan, 0), inserts, HalfSubmitted(s0, scan, plan, k));
    acts := [Begin(scan, plan)] + inserts;
  }

  /** A message for a task one of whose planned dependencies is not even inserted. */
  ghost predicate SentEarly(s: State, scan: ScanId, plan: seq<Planned>, t: TaskId, p: Planned) {
    && scan in s.plans && s.plans[scan] == plan && t.scan == scan && InStream(s.stream, t)
    && t in s.tasks && p in plan && p.id.step in s.tasks[t].deps && p.id !in s.tasks
  }

  ghost predicate InStream(stream: seq<Message>, t: TaskId) {
    exists e :: 0 <= e < |stream| && stream[e].task == t
  }

  // A starter with a late dependency of its own is sent as soon as it is read.

  lemma StarterReady(s0: State, scan: ScanId, plan: seq<Planned>, k: nat, n: nat)
    requires Init(s0) && PlanShape(scan, plan) && Starts(plan, k, n) && plan[k].deps != []
    ensures Ready(HalfSubmitted(s0, scan, plan, n), plan[k].id)
  {
    var s := HalfSubmitted(s0, scan, plan, n);
    HalfRows(s0, scan, plan, n);
    forall x | x in s.tasks ensures x.step !in plan[k].deps {
      var m := KeyIndex(plan, n, x);
    }
  }

  lemma SendBatch(s: State, t: TaskId) returns (acts: seq<Action>, s': State)
    requires s.dispatcher.Idle? && Ready(s, t)
    ensures Exec(s, acts, s') && s'.tasks.Keys == s.tasks.Keys && SameColumns(s.tasks, s'.tasks)
    ensures s'.plans == s.plans && InStream(s'.stream, t)
  {
    var batch := ReadyCanGo(s, t);
    acts := DispatchIsRun(s, batch);
    s' := Moved(s, Dispatch(batch));
    var i :| 0 <= i < |batch| && batch[i] == t;
    assert s'.stream[|s.stream| + i] == Message(t, 1);
  }

  /** The run that sends a starter before one of its dependencies has a row. */
  lemma StarterSentEarly(s0: State, scan: ScanId, plan: seq<Planned>, k: nat, n: nat, m: nat)
    returns (acts: seq<Action>, s': State)
    requires Init(s0) && PlanShape(scan, plan)
    requires Starts(plan, k, n) && n <= m < |plan| && plan[m].id.step in plan[k].deps
    ensures Exec(s0, acts, s') && SentEarly(s', scan, plan, plan[k].id, plan[m])
  {
    var half := HalfSubmitted(s0, scan, plan, n);
    var begun := OpenReached(s0, scan, plan, n);
    StarterReady(s0, scan, plan, k, n);
    var sends;
    sends, s' := SendBatch(half, plan[k].id);
    ExecAppend(s0, begun, half, sends, s');
    acts := begun + sends;
    HalfRows(s0, scan, plan, n);
    if plan[m].id in half.tasks {
      var i := KeyIndex(plan, n, plan[m].id);
    }
    assert plan[k] in plan && plan[m] in plan;
  }

  // A starter without planned dependencies lets all of the inserted part succeed, one
  // delivery after the other.

  ghost predicate AllFound(s: State, scan: ScanId, types: set<string>) {
    forall ty | ty in types :: (scan, ty) in s.findings
  }

  /** Queued or succeeded; what is queued and sent waits in the stream, and a success has
      reported all the types. */
  ghost predicate CalmRow(s: State, t: TaskId, scan: ScanId, types: set<string>)
    requires t in s.tasks && s.cursor <= |s.stream|
  {
    && t.scan == scan && (s.tasks[t].deps == [] ==> s.tasks[t].dispatched)
    && (s.tasks[t].dispatched ==> InStream(s.stream, t))
    && (s.tasks[t].state.Queued? ==> s.tasks[t].dispatched ==> InStream(s.stream[s.cursor..], t))
    && (!s.tasks[t].state.Queued? ==> s.tasks[t].state.Succeeded? && s.tasks[t].dispatched && AllFound(s, scan, types))
  }

  /** Nothing is at work, and nothing has failed. */
  ghost predicate Calm(s: State, scan: ScanId, types: set<string>) {
    && s.cursor <= |s.stream| && s.workers == map[] && s.claims == map[] && s.dispatcher.Idle?
    && (forall e | e in s.pel :: e < s.cursor)
    && (forall e | 0 <= e < |s.stream| :: s.stream[e].task in s.tasks && s.tasks[s.stream[e].task].dispatched)
    && forall t | t in s.tasks :: CalmRow(s, t, scan, types)
  }

  /** The same rows with the same planned columns, none of them unsent again. */
  ghost predicate Onward(s: State, s': State) {
    && s'.tasks.Keys == s.tasks.Keys && SameColumns(s.tasks, s'.tasks)
    && s'.plans == s.plans && s'.submissions == s.submissions
    && forall t | t in s.tasks :: s.tasks[t].dispatched ==> s'.tasks[t].dispatched
  }

  lemma InTail(stream: seq<Message>, n: nat, t: TaskId)
    requires n < |stream| && InStream(stream[n..], t) && stream[n].task != t
    ensures InStream(stream[n + 1..], t)
  {
    var e :| 0 <= e < |stream[n..]| && stream[n..][e].task == t;
    assert stream[n + 1..][e - 1] == stream[n + e];
  }

  lemma HandedCalm(s: State, t: TaskId, scan: ScanId, types: set<string>, row: Row, found: set<(ScanId, string)>)
    requires Calm(s, scan, types) && s.cursor < |s.stream| && s.stream[s.cursor].task == t
    requires row == SucceededRow(s.tasks[t]) || (s.tasks[t].state.Succeeded? && row == s.tasks[t])
    requires s.tasks[t].state.Queued? ==> found == Reported(scan, types)
    ensures Calm(Handed(s, row, found), scan, types) && Onward(s, Handed(s, row, found))
  {
    var s' := Handed(s, row, found);
    assert CalmRow(s, t, scan, types);
    assert AllFound(s', scan, types);
    forall u | u in s'.tasks ensures CalmRow(s', u, scan, types) {
      assert CalmRow(s, u, scan, types);
      if u != t && s'.tasks[u].state.Queued? && s'.tasks[u].dispatched {
        InTail(s.stream, s.cursor, u);
      }
    }
  }

  lemma CalmEntry(s: State, scan: ScanId, types: set<string>)
    requires Calm(s, scan, types) && s.cursor < |s.stream|
    ensures var t := s.stream[s.cursor].task;
            NextEntry(s, t) && t.scan == scan && (s.tasks[t].state.Queued? || s.tasks[t].state.Succeeded?)
  {
    assert CalmRow(s, s.stream[s.cursor].task, scan, types);
  }

  lemma TakeNext(s: State, scan: ScanId, types: set<string>) returns (acts: seq<Action>, s': State)
    requires Calm(s, scan, types) && s.cursor < |s.stream|
    ensures Exec(s, acts, s') && Calm(s', scan, types) && Onward(s, s')
    ensures s'.stream == s.stream && s'.cursor == s.cursor + 1
    ensures forall t | t in s.tasks :: s'.tasks[t].dispatched == s.tasks[t].dispatched
  {
    var t := s.stream[s.cursor].task;
    CalmEntry(s, scan, types);
    var row, found := s.tasks[t], {};
    if s.tasks[t].state.Queued? {
      row, found := SucceededRow(s.tasks[t]), Reported(scan, types);
      acts := RunsToSuccess(s, t, types);
    } else {
      acts := PassedOver(s, t);
    }
    s' := Handed(s, row, found);
    HandedCalm(s, t, scan, types, row, found);
  }

  // One dispatch, once everything sent is done.

  lemma SentOn(stream: seq<Message>, n: nat, batch: seq<TaskId>, t: TaskId)
    requires n <= |stream|
    ensures InStream(stream, t) ==> InStream(stream + FirstMessages(batch), t)
    ensures InStream(stream[n..], t) ==> InStream((stream + FirstMessages(batch))[n..], t)
    ensures t in batch ==> InStream(stream + FirstMessages(batch), t) && InStream((stream + FirstMessages(batch))[n..], t)
  {
    var more := stream + FirstMessages(batch);
    if e :| 0 <= e < |stream| && stream[e].task == t {
      assert more[e].task == t;
    }
    if e :| 0 <= e < |stream[n..]| && stream[n..][e].task == t {
      assert more[n..][e] == stream[n..][e];
    }
    if t in batch {
      var i :| 0 <= i < |batch| && batch[i] == t;
      assert more[|stream| + i] == Message(t, 1) && more[n..][|stream| + i - n] == Message(t, 1);
    }
  }

  lemma DispatchCalm(s: State, batch: seq<TaskId>, scan: ScanId, types: set<string>)
    requires Calm(s, scan, types) && ReadyBatch(s, batch)
    ensures Calm(Moved(s, Dispatch(batch)), scan, types) && Onward(s, Moved(s, Dispatch(batch)))
  {
    var s' := Moved(s, Dispatch(batch));
    forall t | t in batch ensures Ready(s, t) {
    }
    forall u | u in s'.tasks ensures CalmRow(s', u, scan, types) {
      assert CalmRow(s, u, scan, types);
      SentOn(s.stream, s.cursor, batch, u);
    }
    forall e | 0 <= e < |s'.stream| ensures s'.stream[e].task in s'.tasks && s'.tasks[s'.stream[e].task].dispatched {
      if e >= |s.stream| {
        assert s'.stream[e].task == batch[e - |s.stream|] && batch[e - |s.stream|] in batch;
      }
    }
  }

  ghost function UnsentRows(tasks: Tasks): set<TaskId> {
    set t | t in tasks && !tasks[t].dispatched
  }

  lemma FewerUnsent(s: State, batch: seq<TaskId>)
    requires ReadyBatch(s, batch)
    ensures UnsentRows(Moved(s, Dispatch(batch)).tasks) < UnsentRows(s.tasks)
  {
    assert batch[0] in batch && Ready(s, batch[0]) && batch[0] in UnsentRows(s.tasks);
    assert batch[0] !in UnsentRows(Moved(s, Dispatch(batch)).tasks);
  }

  lemma OnwardOn(a: State, b: State, c: State)
    requires Onward(a, b) && Onward(b, c)
    ensures Onward(a, c)
  {
  }

  lemma CalmMove(s: State, scan: ScanId, types: set<string>) returns (acts: seq<Action>, s': State)
    requires Calm(s, scan, types) && (s.cursor < |s.stream| || exists t :: Ready(s, t))
    ensures Exec(s, acts, s') && Calm(s', scan, types) && Onward(s, s')
    ensures UnsentRows(s'.tasks) < UnsentRows(s.tasks) ||
            (UnsentRows(s'.tasks) == UnsentRows(s.tasks) && s'.stream == s.stream && s'.cursor == s.cursor + 1 <= |s.stream|)
  {
    if s.cursor < |s.stream| {
      acts, s' := TakeNext(s, scan, types);
    } else {
      var t :| Ready(s, t);
      var batch := ReadyCanGo(s, t);
      acts := DispatchIsRun(s, batch);
      s' := Moved(s, Dispatch(batch));
      DispatchCalm(s, batch, scan, types);
      FewerUnsent(s, batch);
    }
  }

  /** From a calm state everything that can run is run, the submission standing still. */
  lemma {:induction false} RunCalmly(s: State, scan: ScanId, types: set<string>) returns (acts: seq<Action>, s': State)
    requires Calm(s, scan, types)
    ensures Exec(s, acts, s') && Calm(s', scan, types) && Onward(s, s')
    ensures s'.cursor == |s'.stream| && forall t :: !Ready(s', t)
    decreases UnsentRows(s.tasks), |s.stream| - s.cursor
  {
    if s.cursor == |s.stream| && forall t :: !Ready(s, t) {
      ExecNone(s);
      acts, s' := [], s;
    } else {
      var first, m := CalmMove(s, scan, types);
      var rest;
      rest, s' := RunCalmly(m, scan, types);
      ExecAppend(s, first, m, rest, s');
      OnwardOn(s, m, s');
      acts := first + rest;
    }
  }

  // At its end all has succeeded.

  /** Entry k needs nothing of the plan: a root, or ungated without planned dependencies. */
  ghost predicate Free(plan: seq<Planned>, k: nat) {
    Starts(plan, k, |plan|)
  }

  /** The rows are those of the first m entries. */
  ghost predicate RowsOf(tasks: Tasks, plan: seq<Planned>, m: nat) {
    && m <= |plan| && tasks.Keys == KeysOf(plan[..m])
    && forall k | 0 <= k < m :: plan[k].id in tasks && Agrees(tasks[plan[k].id], plan[k])
  }

  lemma StarterDone(s: State, scan: ScanId, types: set<string>, plan: seq<Planned>, k: nat, m: nat)
    requires Calm(s, scan, types) && s.cursor == |s.stream| && (forall t :: !Ready(s, t))
    requires RowsOf(s.tasks, plan, m) && Free(plan, k) && k < m
    ensures AllFound(s, scan, types)
  {
    assert CalmRow(s, plan[k].id, scan, types) && !InStream(s.stream[s.cursor..], plan[k].id);
    if s.tasks[plan[k].id].state.Queued? {
      UnsentStarterReady(s, scan, types, plan, k, m);
    }
  }

  lemma UnsentStarterReady(s: State, scan: ScanId, types: set<string>, plan: seq<Planned>, k: nat, m: nat)
    requires RowsOf(s.tasks, plan, m) && Free(plan, k) && k < m && s.cursor <= |s.stream|
    requires CalmRow(s, plan[k].id, scan, types) && !InStream(s.stream[s.cursor..], plan[k].id)
    requires s.tasks[plan[k].id].state.Queued?
    ensures Ready(s, plan[k].id)
  {
    forall x | x in s.tasks ensures x.step !in plan[k].deps {
      var j := KeyIndex(plan, m, x);
    }
  }

  /** A queued row would have a ready one below it. */
  lemma {:induction false} QueuedLeadsToReady(s: State, scan: ScanId, types: set<string>, t: TaskId) returns (r: TaskId)
    requires Calm(s, scan, types) && s.cursor == |s.stream| && AllFound(s, scan, types)
    requires forall x | x in s.tasks && s.tasks[x].gate.Some? :: s.tasks[x].gate.value in types
    requires t in s.tasks && s.tasks[t].state.Queued? && Acyclic(RowEdges(s.tasks, scan))
    ensures Ready(s, r)
    decreases Below(s.tasks, scan, t.step)
  {
    assert CalmRow(s, t, scan, types) && !InStream(s.stream[s.cursor..], t);
    if x :| x in s.tasks && x.scan == t.scan && x.step in s.tasks[t].deps && !s.tasks[x].state.Succeeded? {
      assert CalmRow(s, x, scan, types);
      assert (t.step, x.step) in RowEdges(s.tasks, scan);
      BelowShrinks(s.tasks, scan, t.step, x.step);
      r := QueuedLeadsToReady(s, scan, types, x);
    } else {
      r := t;
    }
  }

  ghost function GateTypes(plan: seq<Planned>): set<string> {
    set p | p in plan && p.gate.Some? :: p.gate.value
  }

  lemma GatesInPlan(tasks: Tasks, plan: seq<Planned>, m: nat)
    requires RowsOf(tasks, plan, m)
    ensures forall x | x in tasks && tasks[x].gate.Some? :: tasks[x].gate.value in GateTypes(plan)
  {
    forall x | x in tasks && tasks[x].gate.Some? ensures tasks[x].gate.value in GateTypes(plan) {
      var k := KeyIndex(plan, m, x);
    }
  }

  lemma AllDone(s: State, scan: ScanId, plan: seq<Planned>, k: nat, m: nat)
    requires Calm(s, scan, GateTypes(plan)) && s.cursor == |s.stream| && (forall t :: !Ready(s, t))
    requires RowsOf(s.tasks, plan, m) && Free(plan, k) && k < m && Acyclic(RowEdges(s.tasks, scan))
    ensures forall t | t in s.tasks :: s.tasks[t].state.Succeeded? && InStream(s.stream, t)
  {
    StarterDone(s, scan, GateTypes(plan), plan, k, m);
    GatesInPlan(s.tasks, plan, m);
    forall t | t in s.tasks ensures s.tasks[t].state.Succeeded? && InStream(s.stream, t) {
      assert CalmRow(s, t, scan, GateTypes(plan));
      if s.tasks[t].state.Queued? {
        var r := QueuedLeadsToReady(s, scan, GateTypes(plan), t);
      }
    }
  }

  lemma HalfRow(s0: State, scan: ScanId, plan: seq<Planned>, m: nat, t: TaskId, types: set<string>)
    requires Init(s0) && PlanShape(scan, plan) && m <= |plan| && t in HalfSubmitted(s0, scan, plan, m).tasks
    ensures CalmRow(HalfSubmitted(s0, scan, plan, m), t, scan, types)
  {
    var s := HalfSubmitted(s0, scan, plan, m);
    HalfRows(s0, scan, plan, m);
    var k := KeyIndex(plan, m, t);
    assert s.stream == RootMessages(plan[..m]) && s.stream[s.cursor..] == s.stream;
    if plan[k].deps == [] {
      assert plan[..m][k] == plan[k];
      RootInMessages(plan[..m], t);
      var e :| 0 <= e < |s.stream| && s.stream[e] == Message(t, 1);
      assert InStream(s.stream, t);
    }
  }

  lemma {:induction false} RootsOnly(plan: seq<Planned>, e: nat)
    requires e < |RootMessages(plan)|
    ensures RootMessages(plan)[e].attempt == 1
    ensures exists i :: 0 <= i < |plan| && plan[i].deps == [] && plan[i].id == RootMessages(plan)[e].task
  {
    var n := |plan| - 1;
    if e < |RootMessages(plan[..n])| {
      RootsOnly(plan[..n], e);
      var i :| 0 <= i < n && plan[..n][i].deps == [] && plan[..n][i].id == RootMessages(plan)[e].task;
      assert plan[i] == plan[..n][i];
    }
  }

  lemma HalfCalm(s0: State, scan: ScanId, plan: seq<Planned>, m: nat, types: set<string>)
    requires Init(s0) && PlanShape(scan, plan) && m <= |plan|
    ensures Calm(HalfSubmitted(s0, scan, plan, m), scan, types)
  {
    var s := HalfSubmitted(s0, scan, plan, m);
    HalfRows(s0, scan, plan, m);
    forall t | t in s.tasks ensures CalmRow(s, t, scan, types) {
      HalfRow(s0, scan, plan, m, t, types);
    }
    forall e: nat | e < |s.stream| ensures s.stream[e].task in s.tasks && s.tasks[s.stream[e].task].dispatched {
      HalfMessage(s0, scan, plan, m, e);
    }
  }

  lemma HalfMessage(s0: State, scan: ScanId, plan: seq<Planned>, m: nat, e: nat)
    requires Init(s0) && PlanShape(scan, plan) && m <= |plan| && e < |HalfSubmitted(s0, scan, plan, m).stream|
    ensures var s := HalfSubmitted(s0, scan, plan, m);
            s.stream[e].task in s.tasks && s.tasks[s.stream[e].task].dispatched
  {
    HalfRows(s0, scan, plan, m);
    assert HalfSubmitted(s0, scan, plan, m).stream == RootMessages(plan[..m]);
    RootsOnly(plan[..m], e);
    var i :| 0 <= i < m && plan[..m][i].deps == [] && plan[..m][i].id == RootMessages(plan[..m])[e].task;
    assert plan[i] == plan[..m][i];
  }

  lemma RowsStay(s: State, s': State, plan: seq<Planned>, m: nat)
    requires RowsOf(s.tasks, plan, m) && Onward(s, s')
    ensures RowsOf(s'.tasks, plan, m)
  {
  }

  /** The run in which, before entry m is inserted, all entries before it have succeeded,
      those that depend on entry m among them. */
  lemma SendsEarly(s0: State, scan: ScanId, plan: seq<Planned>, k: nat, m: nat)
    returns (acts: seq<Action>, s': State)
    requires Init(s0) && PlanShape(scan, plan) && Free(plan, k) && k < m < |plan|
    ensures Exec(s0, acts, s') && (forall t | t in s'.tasks :: s'.tasks[t].state.Succeeded?)
    ensures forall j | 0 <= j < m && Early(plan, j, m) :: SentEarly(s', scan, plan, plan[j].id, plan[m])
  {
    var half := HalfSubmitted(s0, scan, plan, m);
    var begun := OpenReached(s0, scan, plan, m);
    HalfCalm(s0, scan, plan, m, GateTypes(plan));
    HalfRows(s0, scan, plan, m);
    var ran;
    ran, s' := RunCalmly(half, scan, GateTypes(plan));
    ExecAppend(s0, begun, half, ran, s');
    acts := begun + ran;
    BasicInit(s0);
    BasicExec(s0, acts, s');
    RowsAcyclic(s', scan);
    RowsStay(half, s', plan, m);
    AllDone(s', scan, plan, k, m);
    forall j | 0 <= j < m && Early(plan, j, m) ensures SentEarly(s', scan, plan, plan[j].id, plan[m]) {
      assert plan[j] in plan && plan[m] in plan;
    }
  }

  // ------------------------------------------------------------- the theorem

  /** In every run, every message for a dependent task of the scan traces back to a
      read that saw its dependencies done and its gate met. */
  ghost predicate SafePlan(scan: ScanId, plan: seq<Planned>) {
    forall states: seq<State>, acts: seq<Action>, e: nat ::
      IsRun(states, acts) && scan in states[|acts|].plans && states[|acts|].plans[scan] == plan &&
      e < |states[|acts|].stream| && Dependent(states[|acts|], scan, states[|acts|].stream[e].task) ==>
        Traced(states, acts, states[|acts|].stream[e].task)
  }

  ghost predicate Dependent(s: State, scan: ScanId, t: TaskId) {
    t.scan == scan && t in s.tasks && s.tasks[t].deps != []
  }

  ghost predicate Traced(states: seq<State>, acts: seq<Action>, t: TaskId)
    requires |states| == |acts| + 1
  {
    exists i: nat :: i < |acts| && acts[i].ReadReady? && t in acts[i].batch &&
      DependenciesDone(states[i], t) && GateMet(states[i], t)
  }

  lemma InOrderIsSafe(scan: ScanId, plan: seq<Planned>)
    requires StartsInOrder(plan)
    ensures SafePlan(scan, plan)
  {
    forall states: seq<State>, acts: seq<Action>, e: nat |
      IsRun(states, acts) && scan in states[|acts|].plans && states[|acts|].plans[scan] == plan &&
      e < |states[|acts|].stream| && Dependent(states[|acts|], scan, states[|acts|].stream[e].task)
      ensures Traced(states, acts, states[|acts|].stream[e].task)
    {
      var i := TracesToDone(states, acts, |acts|, scan, states[|acts|].stream[e].task);
    }
  }

  /** Once a read has seen all dependencies done, their rows are there for good. */
  lemma DoneStaysInserted(states: seq<State>, acts: seq<Action>, i: nat, scan: ScanId, plan: seq<Planned>,
                          t: TaskId, p: Planned)
    requires IsRun(states, acts) && i <= |acts| && DependenciesDone(states[i], t) && t.scan == scan
    requires scan in states[|acts|].plans && states[|acts|].plans[scan] == plan && p in plan
    requires t in states[|acts|].tasks && p.id.step in states[|acts|].tasks[t].deps
    ensures p.id in states[|acts|].tasks
  {
    GrowsRun(states, acts, i, |acts|);
    PlansPersist(states, acts, i, |acts|, scan);
  }

  lemma EarlyIsUntraced(states: seq<State>, acts: seq<Action>, scan: ScanId, plan: seq<Planned>, t: TaskId, p: Planned)
    requires IsRun(states, acts) && SentEarly(states[|acts|], scan, plan, t, p)
    ensures !Traced(states, acts, t)
  {
    if i: nat :| i < |acts| && DependenciesDone(states[i], t) {
      DoneStaysInserted(states, acts, i, scan, plan, t, p);
    }
  }

  lemma EarlySendIsUnsafe(s0: State, acts: seq<Action>, s': State, scan: ScanId, plan: seq<Planned>, t: TaskId, p: Planned)
    requires Init(s0) && Exec(s0, acts, s') && SentEarly(s', scan, plan, t, p)
    ensures !SafePlan(scan, plan)
  {
    var states: seq<State> :| Leads(states, s0, acts, s');
    var e: nat :| e < |s'.stream| && s'.stream[e].task == t;
    EarlyIsUntraced(states, acts, scan, plan, t, p);
    assert IsRun(states, acts) && Dependent(states[|acts|], scan, states[|acts|].stream[e].task);
  }

  lemma NotItself(scan: ScanId, plan: seq<Planned>, j: nat, m: nat)
    requires PlanShape(scan, plan) && Early(plan, j, m)
    ensures j < m
  {
    assert plan[j] in plan;
    if j == m {
      EdgeReaches(PlanEdges(plan), plan[j].id.step, plan[j].id.step);
    }
  }

  lemma LateIsUnsafe(scan: ScanId, plan: seq<Planned>, j: nat, m: nat)
    requires PlanShape(scan, plan) && Early(plan, j, m) && Started(plan, m)
    ensures !SafePlan(scan, plan)
  {
    var s0 := State(map[], map[], map[], {}, [], 0, {}, map[], map[], map[], Idle, map[]);
    var k: nat, n: nat :| n <= m && Starts(plan, k, n);
    NotItself(scan, plan, j, m);
    if i: nat :| n <= i < |plan| && plan[i].id.step in plan[k].deps {
      var acts, s' := StarterSentEarly(s0, scan, plan, k, n, i);
      EarlySendIsUnsafe(s0, acts, s', scan, plan, plan[k].id, plan[i]);
    } else {
      assert Free(plan, k);
      var acts, s' := SendsEarly(s0, scan, plan, k, m);
      EarlySendIsUnsafe(s0, acts, s', scan, plan, plan[j].id, plan[m]);
    }
  }

  /** Dispatch safety, exactly: a plan is safe in all runs iff no entry is listed before
      one of its dependencies that is first inserted once something can have started. */
  lemma SafeIff(scan: ScanId, plan: seq<Planned>)
    requires PlanShape(scan, plan)
    ensures SafePlan(scan, plan) <==> forall j: nat, m: nat | Early(plan, j, m) :: !Started(plan, m)
  {
    if StartsInOrder(plan) {
      InOrderIsSafe(scan, plan);
    } else {
      var j: nat, m: nat :| Early(plan, j, m) && Started(plan, m);
      LateIsUnsafe(scan, plan, j, m);
    }
  }

  lemma InOrderIff(plan: seq<Planned>)
    ensures PlannedInOrder(plan) ==> forall j: nat, m: nat :: !Early(plan, j, m)
    ensures DistinctKeys(plan) && (forall j: nat, m: nat :: !Early(plan, j, m)) ==> PlannedInOrder(plan)
  {
    if DistinctKeys(plan) && forall j: nat, m: nat :: !Early(plan, j, m) {
      forall k, m | 0 <= k < |plan| && 0 <= m < |plan| && plan[m].id.step in plan[k].deps ensures m < k {
        if plan[m].id in KeysOf(plan[..m]) {
          var i := KeyIndex(plan, m, plan[m].id);
        }
        assert !Early(plan, k, m);
      }
    }
  }

  /** A plan that begins with a root is safe iff no entry is listed before the first entry
      of one of its dependencies; without repeated keys, iff it lists dependencies first. */
  lemma SafeIffOrdered(scan: ScanId, plan: seq<Planned>)
    requires plan != [] && PlanShape(scan, plan) && plan[0].deps == []
    ensures SafePlan(scan, plan) <==> forall j: nat, m: nat :: !Early(plan, j, m)
    ensures DistinctKeys(plan) ==> (SafePlan(scan, plan) <==> PlannedInOrder(plan))
  {
    SafeIff(scan, plan);
    forall j: nat, m: nat | Early(plan, j, m) ensures Started(plan, m) {
      NotItself(scan, plan, j, m);
      assert 1 <= m && Starts(plan, 0, 1);
    }
    InOrderIff(plan);
  }

  // ------------------------------------------------------------ workflows

  lemma {:induction false} PlanGrows(scan: ScanId, wf: Workflow, targets: seq<string>, i: nat, n: nat)
    requires i <= n <= |wf.steps|
    ensures PlanPrefix(scan, wf, targets, i) <= PlanPrefix(scan, wf, targets, n)
    decreases n
  {
    if i < n {
      PlanGrows(scan, wf, targets, i, n - 1);
    }
  }

  /** Where the entries of a step stand: after those of the steps listed before it. */
  lemma EntriesOfStep(scan: ScanId, wf: Workflow, targets: seq<string>, i: nat) returns (k: nat)
    requires i < |wf.steps| && targets != [] && DistinctNames(wf.steps)
    ensures var plan, before := Plan(scan, wf, targets), |PlanPrefix(scan, wf, targets, i)|;
            && before == k < |PlanPrefix(scan, wf, targets, i + 1)| <= |plan|
            && plan[k].id.step == wf.steps[i].name && plan[k].deps == wf.steps[i].deps
            && forall m | 0 <= m < before :: plan[m].id.step != wf.steps[i].name
  {
    var a, b := PlanPrefix(scan, wf, targets, i), PlanPrefix(scan, wf, targets, i + 1);
    var here := PlanStep(scan, wf.maxAttempts, wf.steps[i], targets);
    PlanGrows(scan, wf, targets, i + 1, |wf.steps|);
    PlanGrows(scan, wf, targets, i, i + 1);
    PlanMembers(scan, wf, targets, i);
    k := |a|;
    assert b == a + here && b[k] == here[0];
    forall m | 0 <= m < |a| ensures a[m].id.step != wf.steps[i].name {
      assert a[m] in a;
      var j :| 0 <= j < i && FromStep(a[m], scan, wf, targets, j);
    }
  }

  lemma LateStepIsEarly(scan: ScanId, wf: Workflow, targets: seq<string>, i: nat, j: nat) returns (k: nat, m: nat)
    requires DistinctNames(wf.steps) && targets != [] && i <= j < |wf.steps| && wf.steps[j].name in wf.steps[i].deps
    ensures Early(Plan(scan, wf, targets), k, m)
  {
    var plan := Plan(scan, wf, targets);
    k := EntriesOfStep(scan, wf, targets, i);
    var n := EntriesOfStep(scan, wf, targets, j);
    m := FirstOfKey(plan, n);
    if i < j {
      PlanGrows(scan, wf, targets, i + 1, j);
    }
  }

  lemma InOrderHasNoEarly(scan: ScanId, wf: Workflow, targets: seq<string>, tools: set<string>)
    requires Loadable(wf, tools) && targets != []
    ensures (forall j: nat, m: nat :: !Early(Plan(scan, wf, targets), j, m)) <==> ListedInOrder(wf.steps)
  {
    if ListedInOrder(wf.steps) {
      ListedInOrderPlans(scan, wf, targets, |wf.steps|);
      InOrderIff(Plan(scan, wf, targets));
    } else {
      var i, d :| 0 <= i < |wf.steps| && d in wf.steps[i].deps && !exists j :: 0 <= j < i && wf.steps[j].name == d;
      assert wf.steps[i] in wf.steps;
      var j :| 0 <= j < |wf.steps| && wf.steps[j].name == d;
      var k, m := LateStepIsEarly(scan, wf, targets, i, j);
    }
  }

  /** For an accepted workflow that begins with a step without dependencies, whatever its
      targets, dispatch is safe in all runs iff every step is listed after its
      dependencies. */
  lemma WorkflowSafeIff(scan: ScanId, wf: Workflow, targets: seq<string>, tools: set<string>)
    requires Loadable(wf, tools) && targets != [] && wf.steps[0].deps == []
    ensures SafePlan(scan, Plan(scan, wf, targets)) <==> ListedInOrder(wf.steps)
  {
    PlanHasShape(scan, wf, targets, tools);
    PlanStartsWithRoot(scan, wf, targets);
    SafeIffOrdered(scan, Plan(scan, wf, targets));
    InOrderHasNoEarly(scan, wf, targets, tools);
  }

  lemma PlanStartsWithRoot(scan: ScanId, wf: Workflow, targets: seq<string>)
    requires wf.steps != [] && targets != [] && wf.steps[0].deps == []
    ensures Plan(scan, wf, targets) != [] && Plan(scan, wf, targets)[0].deps == []
  {
    PlanGrows(scan, wf, targets, 1, |wf.steps|);
    assert PlanPrefix(scan, wf, targets, 1) == PlanStep(scan, wf.maxAttempts, wf.steps[0], targets);
  }
}
