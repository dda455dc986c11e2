/** The statements and queue calls of the platform as methods on its shared state.
    Each is one step of the transition system; `Await` lets the other coroutines and
    processes take theirs. */
module Runtime {
  import opened Prelude
  import opened Graph
  import opened Planner
  import opened Lifecycle

  /** Tables, stream and consumer group, and where every coroutine stands. */
  class Platform {
    var tasks: Tasks
    var scans: map<ScanId, ScanStatus>
    var plans: map<ScanId, seq<Planned>>
    var findings: set<(ScanId, string)>
    var stream: seq<Message>
    var cursor: nat
    var pel: set<nat>
    var workers: map<nat, Phase>
    var claims: map<nat, Claim>
    var submissions: map<ScanId, Submission>
    var dispatcher: Dispatcher
    var closing: map<ScanId, Closing>

    function Now(): State
      reads this
    {
      State(tasks, scans, plans, findings, stream, cursor, pel, workers, claims, submissions, dispatcher, closing)
    }

    constructor ()
      ensures Init(Now())
    {
      tasks, scans, plans, findings := map[], map[], map[], {};
      stream, cursor, pel, workers, claims := [], 0, {}, map[], map[];
      submissions, dispatcher, closing := map[], Idle, map[];
    }

    /** An await: whatever the others do meanwhile. */
    method Await(others: State -> State)
      modifies this
      ensures Now() == others(old(Now()))
    {
      var s := others(Now());
      SetTables(s);
      SetCoroutines(s);
      assert Now() == s;
    }

    method SetTables(s: State)
      modifies `tasks, `scans, `plans, `findings, `stream, `cursor, `pel
      ensures tasks == s.tasks && scans == s.scans && plans == s.plans && findings == s.findings
      ensures stream == s.stream && cursor == s.cursor && pel == s.pel
    {
      tasks, scans, plans, findings, stream, cursor, pel :=
        s.tasks, s.scans, s.plans, s.findings, s.stream, s.cursor, s.pel;
    }

    method SetCoroutines(s: State)
      modifies `workers, `claims, `submissions, `dispatcher, `closing
      ensures workers == s.workers && claims == s.claims && submissions == s.submissions
      ensures dispatcher == s.dispatcher && closing == s.closing
    {
      workers, claims, submissions, dispatcher, closing :=
        s.workers, s.claims, s.submissions, s.dispatcher, s.closing;
    }

    // --------------------------------------------------------------- queue

    method Enqueue(m: Message) returns (entry: nat)
      modifies `stream
      ensures stream == old(stream) + [m] && entry == |old(stream)|
    {
      entry := |stream|;
      stream := stream + [m];
    }

    /** A group read of one entry; None when nothing is undelivered. */
    method Consume() returns (entry: Option<nat>)
      modifies `cursor, `pel, `workers
      ensures entry.None? <==> old(cursor) >= |stream|
      ensures entry.None? ==> Now() == old(Now())
      ensures entry.Some? ==> entry.value == old(cursor) && Next(old(Now()), Deliver, Now())
    {
      if cursor >= |stream| {
        return None;
      }
      entry := Some(cursor);
      workers := workers[cursor := Fetched];
      pel := pel + {cursor};
      cursor := cursor + 1;
    }

    method AckEntry(e: nat)
      modifies `pel
      ensures pel == old(pel) - {e}
    {
      pel := pel - {e};
    }

    // -------------------------------------------------------------- tables

    /** Insert unless the key exists; either way the id of the row. */
    method InsertTask(planned: Planned) returns (id: TaskId)
      modifies `tasks
      ensures tasks == InsertRow(old(tasks), planned) && id == planned.id && id in tasks
    {
      if planned.id !in tasks {
        tasks := tasks[planned.id := FreshRow(planned)];
      }
      id := planned.id;
    }

    method MarkDispatched(ids: seq<TaskId>)
      modifies `tasks
      ensures tasks == MarkRows(old(tasks), ids)
    {
      if ids != [] {
        tasks := map t | t in tasks :: if t in ids then tasks[t].(dispatched := true) else tasks[t];
      }
    }

    /** Abort every queued task of the failed step and of the steps behind it. */
    method AbortDependents(scan: ScanId, failed: StepName)
      modifies `tasks
      ensures tasks == AbortRows(old(tasks), scan, failed)
    {
      var bad := CascadeSteps(RowEdges(tasks, scan), failed);
      tasks := map t | t in tasks ::
        if t.scan == scan && tasks[t].state.Queued? && t.step in bad
        then tasks[t].(state := Aborted) else tasks[t];
    }

    /** The ready query with its limit. */
    method ReadyTasks() returns (batch: seq<TaskId>)
      ensures batch == [] ==> forall t :: !Ready(Now(), t)
      ensures batch != [] ==> ReadyBatch(Now(), batch)
    {
      batch := [];
      var rows := tasks.Keys;
      while rows != {} && |batch| < READY_LIMIT
        invariant rows <= tasks.Keys && |batch| <= READY_LIMIT && Distinct(batch)
        invariant forall t | t in batch :: Ready(Now(), t) && t !in rows
        invariant forall t | t in tasks.Keys - rows && Ready(Now(), t) :: t in batch
        decreases rows
      {
        var t :| t in rows;
        rows := rows - {t};
        if Ready(Now(), t) {
          batch := batch + [t];
        }
      }
    }
  }
}
