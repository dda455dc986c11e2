/** The distributed task lifecycle as a transition system: master, workers and
    reclaimers share the task table and the stream, and every statement or queue
    call between two awaits is one atomic step. */
module Lifecycle {
  import opened Prelude
  import opened Graph
  import opened Planner

  // ------------------------------------------------------------- tables

  datatype TaskState = Queued | Running | Succeeded | Failed | Aborted | Dead {
    predicate Terminal() {
      !Queued? && !Running?
    }
  }

  /** The summary stored with a terminal outcome by `_finalize`. */
  datatype Verdict = OutOfScope | NotPermitted | BadParameters | Exhausted | Completed {
    function State(): TaskState {
      match this
      case OutOfScope => Failed
      case Completed => Succeeded
      case _ => Dead
    }

    /** Does the handler abort the dependents afterwards? */
    predicate Cascades() {
      OutOfScope? || BadParameters? || Exhausted?
    }
  }

  datatype Row = Row(deps: seq<StepName>, gate: Option<string>, maxAttempts: int,
                     state: TaskState, dispatched: bool, result: Option<Verdict>)

  type Tasks = map<TaskId, Row>

  datatype ScanStatus = Pending | Active | ScanCompleted | ScanFailed

  // ------------------------------------------------- queue and coroutines

  datatype Message = Message(task: TaskId, attempt: int)

  /** Where the handler of one delivery stands; it has no entry once it is gone. */
  datatype Phase =
    | Fetched       // delivered, the row not claimed yet
    | Unclaimable   // the claim matched no row, about to ACK
    | Claimed       // row set to running
    | Recorded      // tool succeeded, its findings are stored
    | Cascading     // failed for good, dependents not aborted yet
    | Finished      // outcome persisted, about to ACK
    | RetryPending  // row set back to queued, redelivery not sent yet
    | RetrySent     // redelivery sent, about to ACK
  {
    /** Can this handler still change its own row, or send the task again? */
    predicate Live() {
      Fetched? || Claimed? || Recorded? || RetryPending?
    }
  }

  /** Is the handler at work on its claimed row? */
  predicate Owning(p: Phase) {
    p.Claimed? || p.Recorded?
  }

  /** A reclaimer's hold on a stale entry; `sent` once it has re-sent the task. */
  datatype Claim = Claim(entry: nat, sent: bool)

  datatype SubmitPoint = Inserting | Sending | Marking

  datatype Submission = Submission(pos: nat, point: SubmitPoint)

  datatype Dispatcher = Idle | Dispatching(todo: seq<TaskId>, sent: seq<TaskId>)

  datatype Closing = Selected | Decided(status: ScanStatus)

  /** `stream[e]` is the message with entry id e. Entries from `cursor` on are not
      delivered yet; `pel` holds the delivered entries that are not ACKed. `plans`
      keeps the plan of a submission after the submission has ended. */
  datatype State = State(
    tasks: Tasks,
    scans: map<ScanId, ScanStatus>,
    plans: map<ScanId, seq<Planned>>,
    findings: set<(ScanId, string)>,
    stream: seq<Message>,
    cursor: nat,
    pel: set<nat>,
    workers: map<nat, Phase>,
    claims: map<nat, Claim>,
    submissions: map<ScanId, Submission>,
    dispatcher: Dispatcher,
    closing: map<ScanId, Closing>)

  ghost predicate Init(s: State) {
    s == State(map[], map[], map[], {}, [], 0, {}, map[], map[], map[], Idle, map[])
  }

  // -------------------------------------------------------------- actions

  datatype Action =
    // submit_scan
    | Begin(scan: ScanId, plan: seq<Planned>)
    | Insert(scan: ScanId)
    | Send(scan: ScanId)
    | Mark(scan: ScanId)
    | Finish(scan: ScanId)
    | Abandon(scan: ScanId)
    // _dispatch_ready_tasks
    | ReadReady(batch: seq<TaskId>)
    | SendReady
    | MarkReady
    | AbandonDispatch
    // _finalize_scans
    | Select(scan: ScanId)
    | Tally(scan: ScanId)
    | Close(scan: ScanId)
    | AbandonClosing(scan: ScanId)
    // a worker handling entry e
    | Deliver
    | TryClaim(e: nat)
    | Record(e: nat, types: set<string>)
    | Conclude(e: nat, verdict: Verdict)
    | Retry(e: nat)
    | Cascade(e: nat)
    | Resend(e: nat)
    | Ack(e: nat)
    | Stop(e: nat)
    // a reclaimer
    | Grab(c: nat, entry: nat)
    | Requeue(c: nat)
    | Release(c: nat)
    | Drop(c: nat)

  // -------------------------------------------------------------- queries

  /** The dispatcher's query: queued, undispatched, every inserted task of every
      dependency step succeeded, and the routing gate satisfied. */
  predicate Ready(s: State, t: TaskId) {
    && t in s.tasks
    && !s.tasks[t].dispatched && s.tasks[t].state.Queued?
    && (forall x | x in s.tasks && x.scan == t.scan && x.step in s.tasks[t].deps :: s.tasks[x].state.Succeeded?)
    && (s.tasks[t].gate.None? || (t.scan, s.tasks[t].gate.value) in s.findings)
  }

  const READY_LIMIT: nat := 50

  /** One answer of the ready query, which stops at its LIMIT. */
  ghost predicate ReadyBatch(s: State, batch: seq<TaskId>) {
    && batch != [] && |batch| <= READY_LIMIT && Distinct(batch)
    && (forall t | t in batch :: Ready(s, t))
    && (|batch| < READY_LIMIT ==> forall t :: Ready(s, t) ==> t in batch)
  }

  predicate Closable(s: State, scan: ScanId) {
    && scan in s.scans && s.scans[scan].Active?
    && forall t | t in s.tasks && t.scan == scan :: s.tasks[t].state.Terminal()
  }

  predicate SomeIn(s: State, scan: ScanId, state: TaskState) {
    exists t :: t in s.tasks && t.scan == scan && s.tasks[t].state == state
  }

  /** The edges the abort query walks: those of the scan's inserted rows. */
  function RowEdges(tasks: Tasks, scan: ScanId): Edges {
    set t, d | t in tasks && t.scan == scan && d in tasks[t].deps :: (t.step, d)
  }

  ghost function AbortRows(tasks: Tasks, scan: ScanId, failed: StepName): (after: Tasks)
    ensures after.Keys == tasks.Keys
  {
    map t | t in tasks ::
      if t.scan == scan && tasks[t].state.Queued? && Hit(RowEdges(tasks, scan), failed, t.step)
      then tasks[t].(state := Aborted) else tasks[t]
  }

  function FreshRow(p: Planned): Row {
    Row(p.deps, p.gate, p.maxAttempts, Queued, false, None)
  }

  /** ON CONFLICT DO NOTHING on the idempotency key. */
  function InsertRow(tasks: Tasks, p: Planned): Tasks {
    if p.id in tasks then tasks else tasks[p.id := FreshRow(p)]
  }

  function MarkRows(tasks: Tasks, ids: seq<TaskId>): (after: Tasks)
    ensures after.Keys == tasks.Keys
  {
    map t | t in tasks :: if t in ids then tasks[t].(dispatched := true) else tasks[t]
  }

  function SetState(tasks: Tasks, t: TaskId, state: TaskState): (after: Tasks)
    requires t in tasks
    ensures after.Keys == tasks.Keys
  {
    tasks[t := tasks[t].(state := state)]
  }

  // ----------------------------------------------------------- transitions

  /** The handler of entry e stands at the given point, its row being present. */
  ghost predicate At(s: State, e: nat, phase: Phase) {
    && e < |s.stream| && e in s.workers && s.workers[e] == phase
    && s.stream[e].task in s.tasks
  }

  ghost predicate Submitting(s: State, scan: ScanId, point: SubmitPoint) {
    && scan in s.submissions && scan in s.plans && s.submissions[scan].point == point
    && s.submissions[scan].pos < |s.plans[scan]|
  }

  ghost function Current(s: State, scan: ScanId): Planned
    requires scan in s.submissions && scan in s.plans && s.submissions[scan].pos < |s.plans[scan]|
  {
    s.plans[scan][s.submissions[scan].pos]
  }

  ghost predicate Enabled(s: State, a: Action) {
    match a
    case Begin(scan, plan) => scan !in s.scans && plan != [] && PlanShape(scan, plan)
    case Insert(scan) => Submitting(s, scan, Inserting)
    case Send(scan) => Submitting(s, scan, Sending)
    case Mark(scan) => Submitting(s, scan, Marking)
    case Finish(scan) =>
      scan in s.submissions && scan in s.plans && s.submissions[scan] == Submission(|s.plans[scan]|, Inserting)
    case Abandon(scan) => scan in s.submissions
    case ReadReady(batch) => s.dispatcher.Idle? && ReadyBatch(s, batch)
    case SendReady => s.dispatcher.Dispatching? && s.dispatcher.todo != []
    case MarkReady => s.dispatcher.Dispatching? && s.dispatcher.todo == []
    case AbandonDispatch => s.dispatcher.Dispatching?
    case Select(scan) => scan !in s.closing && Closable(s, scan)
    case Tally(scan) => scan in s.closing && s.closing[scan].Selected?
    case Close(scan) => scan in s.closing && s.closing[scan].Decided? && scan in s.scans
    case AbandonClosing(scan) => scan in s.closing
    case Deliver => s.cursor < |s.stream|
    case TryClaim(e) => e < |s.stream| && e in s.workers && s.workers[e].Fetched?
    case Record(e, types) => At(s, e, Claimed)
    case Conclude(e, v) =>
      if v.Completed? then At(s, e, Recorded)
      else At(s, e, Claimed) &&
           (v.Exhausted? ==> s.stream[e].attempt >= s.tasks[s.stream[e].task].maxAttempts)
    case Retry(e) => At(s, e, Claimed) && s.stream[e].attempt < s.tasks[s.stream[e].task].maxAttempts
    case Cascade(e) => At(s, e, Cascading)
    case Resend(e) => At(s, e, RetryPending)
    case Ack(e) => e in s.workers && (s.workers[e].Unclaimable? || s.workers[e].Finished? || s.workers[e].RetrySent?)
    case Stop(e) => e in s.workers
    case Grab(c, entry) => c !in s.claims && entry in s.pel && entry < |s.stream|
    case Requeue(c) => c in s.claims && !s.claims[c].sent && s.claims[c].entry < |s.stream|
    case Release(c) => c in s.claims && s.claims[c].sent
    case Drop(c) => c in s.claims
  }

  /** Is the row present and claimable (`queued` or `running`)? */
  ghost predicate Claimable(s: State, e: nat)
    requires e < |s.stream|
  {
    s.stream[e].task in s.tasks && !s.tasks[s.stream[e].task].state.Terminal()
  }

  predicate SubmitAction(a: Action) {
    a.Begin? || a.Insert? || a.Send? || a.Mark? || a.Finish? || a.Abandon?
  }

  predicate DispatchAction(a: Action) {
    a.ReadReady? || a.SendReady? || a.MarkReady? || a.AbandonDispatch?
  }

  predicate ClosingAction(a: Action) {
    a.Select? || a.Tally? || a.Close? || a.AbandonClosing?
  }

  predicate ReclaimAction(a: Action) {
    a.Grab? || a.Requeue? || a.Release? || a.Drop?
  }

  predicate WorkerAction(a: Action) {
    !SubmitAction(a) && !DispatchAction(a) && !ClosingAction(a) && !ReclaimAction(a)
  }

  ghost function ApplySubmit(s: State, a: Action): (s': State)
    requires Enabled(s, a) && SubmitAction(a)
    ensures s'.findings == s.findings && s'.cursor == s.cursor && s'.pel == s.pel && s'.workers == s.workers
    ensures s'.claims == s.claims && s'.dispatcher == s.dispatcher && s'.closing == s.closing
  {
    match a
    case Begin(scan, plan) =>
      s.(scans := s.scans[scan := Pending], plans := s.plans[scan := plan],
         submissions := s.submissions[scan := Submission(0, Inserting)])
    case Insert(scan) =>
      var p, pos := Current(s, scan), s.submissions[scan].pos;
      var next := if p.deps == [] then Submission(pos, Sending) else Submission(pos + 1, Inserting);
      s.(tasks := InsertRow(s.tasks, p), submissions := s.submissions[scan := next])
    case Send(scan) =>
      s.(stream := s.stream + [Message(Current(s, scan).id, 1)],
         submissions := s.submissions[scan := Submission(s.submissions[scan].pos, Marking)])
    case Mark(scan) =>
      s.(tasks := MarkRows(s.tasks, [Current(s, scan).id]),
         submissions := s.submissions[scan := Submission(s.submissions[scan].pos + 1, Inserting)])
    case Finish(scan) =>
      s.(scans := s.scans[scan := Active], submissions := s.submissions - {scan})
    case Abandon(scan) => s.(submissions := s.submissions - {scan})
  }

  ghost function ApplyDispatch(s: State, a: Action): (s': State)
    requires Enabled(s, a) && DispatchAction(a)
    ensures s'.scans == s.scans && s'.plans == s.plans && s'.findings == s.findings && s'.cursor == s.cursor
    ensures s'.pel == s.pel && s'.workers == s.workers && s'.claims == s.claims && s'.submissions == s.submissions
    ensures s'.closing == s.closing
    ensures s'.tasks.Keys == s.tasks.Keys
  {
    match a
    case ReadReady(batch) => s.(dispatcher := Dispatching(batch, []))
    case SendReady =>
      var d := s.dispatcher;
      s.(stream := s.stream + [Message(d.todo[0], 1)],
         dispatcher := Dispatching(d.todo[1..], d.sent + [d.todo[0]]))
    case MarkReady => s.(tasks := MarkRows(s.tasks, s.dispatcher.sent), dispatcher := Idle)
    case AbandonDispatch => s.(dispatcher := Idle)
  }

  ghost function ApplyClosing(s: State, a: Action): (s': State)
    requires Enabled(s, a) && ClosingAction(a)
    ensures s'.tasks == s.tasks && s'.plans == s.plans && s'.findings == s.findings && s'.stream == s.stream
    ensures s'.cursor == s.cursor && s'.pel == s.pel && s'.workers == s.workers && s'.claims == s.claims
    ensures s'.submissions == s.submissions && s'.dispatcher == s.dispatcher
  {
    match a
    case Select(scan) => s.(closing := s.closing[scan := Selected])
    case Tally(scan) =>
      if SomeIn(s, scan, Succeeded) then s.(closing := s.closing[scan := Decided(ScanCompleted)])
      else if SomeIn(s, scan, Failed) || SomeIn(s, scan, Aborted) || SomeIn(s, scan, Dead)
      then s.(closing := s.closing[scan := Decided(ScanFailed)])
      else s.(closing := s.closing - {scan})
    case Close(scan) => s.(scans := s.scans[scan := s.closing[scan].status], closing := s.closing - {scan})
    case AbandonClosing(scan) => s.(closing := s.closing - {scan})
  }

  ghost function ApplyWorker(s: State, a: Action): (s': State)
    requires Enabled(s, a) && WorkerAction(a)
    ensures s'.scans == s.scans && s'.plans == s.plans && s'.claims == s.claims && s'.submissions == s.submissions
    ensures s'.dispatcher == s.dispatcher && s'.closing == s.closing
    ensures s'.tasks.Keys == s.tasks.Keys
  {
    match a
    case Deliver =>
      s.(cursor := s.cursor + 1, pel := s.pel + {s.cursor}, workers := s.workers[s.cursor := Fetched])
    case TryClaim(e) =>
      if Claimable(s, e)
      then s.(tasks := SetState(s.tasks, s.stream[e].task, Running), workers := s.workers[e := Claimed])
      else s.(workers := s.workers[e := Unclaimable])
    case Record(e, types) =>
      s.(findings := s.findings + (set ty | ty in types :: (s.stream[e].task.scan, ty)),
         workers := s.workers[e := Recorded])
    case Conclude(e, v) =>
      var t := s.stream[e].task;
      s.(tasks := s.tasks[t := s.tasks[t].(state := v.State(), result := Some(v))],
         workers := s.workers[e := if v.Cascades() then Cascading else Finished])
    case Retry(e) =>
      s.(tasks := SetState(s.tasks, s.stream[e].task, Queued), workers := s.workers[e := RetryPending])
    case Cascade(e) =>
      s.(tasks := AbortRows(s.tasks, s.stream[e].task.scan, s.stream[e].task.step),
         workers := s.workers[e := Finished])
    case Resend(e) =>
      s.(stream := s.stream + [Message(s.stream[e].task, s.stream[e].attempt + 1)],
         workers := s.workers[e := RetrySent])
    case Ack(e) => s.(pel := s.pel - {e}, workers := s.workers - {e})
    case Stop(e) => s.(workers := s.workers - {e})
  }

  ghost function ApplyReclaim(s: State, a: Action): (s': State)
    requires Enabled(s, a) && ReclaimAction(a)
    ensures s'.tasks == s.tasks && s'.scans == s.scans && s'.plans == s.plans && s'.findings == s.findings
    ensures s'.cursor == s.cursor && s'.workers == s.workers && s'.submissions == s.submissions
    ensures s'.dispatcher == s.dispatcher && s'.closing == s.closing
  {
    match a
    case Grab(c, entry) => s.(claims := s.claims[c := Claim(entry, false)])
    case Requeue(c) =>
      var m := s.stream[s.claims[c].entry];
      s.(stream := s.stream + [Message(m.task, m.attempt + 1)],
         claims := s.claims[c := Claim(s.claims[c].entry, true)])
    case Release(c) => s.(pel := s.pel - {s.claims[c].entry}, claims := s.claims - {c})
    case Drop(c) => s.(claims := s.claims - {c})
  }

  ghost function Apply(s: State, a: Action): State
    requires Enabled(s, a)
  {
    if SubmitAction(a) then ApplySubmit(s, a)
    else if DispatchAction(a) then ApplyDispatch(s, a)
    else if ClosingAction(a) then ApplyClosing(s, a)
    else if ReclaimAction(a) then ApplyReclaim(s, a)
    else ApplyWorker(s, a)
  }

  // ----------------------------------------------------------------- runs

  ghost predicate Next(s: State, a: Action, s': State) {
    Enabled(s, a) && s' == Apply(s, a)
  }

  ghost predicate StepAt(states: seq<State>, acts: seq<Action>, i: nat) {
    i < |acts| && i + 1 < |states| && Next(states[i], acts[i], states[i + 1])
  }

  /** Consecutive steps, with the states in between. */
  ghost predicate Path(states: seq<State>, acts: seq<Action>) {
    |states| == |acts| + 1 && forall i: nat | i < |acts| :: StepAt(states, acts, i)
  }

  ghost predicate IsRun(states: seq<State>, acts: seq<Action>) {
    Path(states, acts) && Init(states[0])
  }

  /** One step of a path, with the path itself out of sight. */
  lemma RunStep(states: seq<State>, acts: seq<Action>, i: nat)
    requires Path(states, acts) && i < |acts|
    ensures Next(states[i], acts[i], states[i + 1])
  {
    assert StepAt(states, acts, i);
  }

  lemma PathAppend(states: seq<State>, acts: seq<Action>, more: seq<State>, next: seq<Action>)
    requires Path(states, acts) && Path(more, next) && more[0] == states[|acts|]
    ensures Path(states + more[1..], acts + next)
  {
    forall i: nat | i < |acts + next| ensures StepAt(states + more[1..], acts + next, i) {
      if i < |acts| {
        assert StepAt(states, acts, i);
      } else {
        assert StepAt(more, next, i - |acts|);
      }
    }
  }

  ghost predicate Leads(states: seq<State>, s: State, acts: seq<Action>, s': State) {
    Path(states, acts) && states[0] == s && states[|acts|] == s'
  }

  /** Consecutive steps from s to s', by any actors. */
  ghost predicate Exec(s: State, acts: seq<Action>, s': State) {
    exists states :: Leads(states, s, acts, s')
  }

  lemma ExecAppend(s: State, a: seq<Action>, m: State, b: seq<Action>, s': State)
    requires Exec(s, a, m) && Exec(m, b, s')
    ensures Exec(s, a + b, s')
  {
    var states :| Leads(states, s, a, m);
    var more :| Leads(more, m, b, s');
    PathAppend(states, a, more, b);
    assert Leads(states + more[1..], s, a + b, s');
  }

  lemma ExecNone(s: State)
    ensures Exec(s, [], s)
  {
    assert Leads([s], s, [], s);
  }

  lemma ExecOne(s: State, a: Action, s': State)
    requires Next(s, a, s')
    ensures Exec(s, [a], s')
  {
    assert StepAt([s, s'], [a], 0);
    assert Leads([s, s'], s, [a], s');
  }

  lemma ExecStep(s: State, acts: seq<Action>, m: State, a: Action, s': State)
    requires Exec(s, acts, m) && Next(m, a, s')
    ensures Exec(s, acts + [a], s')
  {
    ExecOne(m, a, s');
    ExecAppend(s, acts, m, [a], s');
  }

  lemma ExecCons(s: State, a: Action, m: State, acts: seq<Action>, s': State)
    requires Next(s, a, m) && Exec(m, acts, s')
    ensures Exec(s, [a] + acts, s')
  {
    ExecOne(s, a, m);
    ExecAppend(s, [a], m, acts, s');
  }

  // --------------------------------------------------- basic invariant

  /** Entries known to workers, reclaimers and the pending list were delivered. */
  ghost predicate QueueOk(length: nat, cursor: nat, pel: set<nat>, workers: map<nat, Phase>, claims: map<nat, Claim>) {
    && cursor <= length
    && (forall e | e in pel :: e < cursor)
    && (forall e | e in workers :: e < cursor)
    && (forall c | c in claims :: claims[c].entry < cursor)
  }

  ghost predicate Agrees(row: Row, p: Planned) {
    p.deps == row.deps && p.gate == row.gate && p.maxAttempts == row.maxAttempts
  }

  /** Every row was inserted from the plan of its scan. */
  ghost predicate RowsPlanned(tasks: Tasks, plans: map<ScanId, seq<Planned>>) {
    forall t | t in tasks :: t.scan in plans &&
      exists p | p in plans[t.scan] :: p.id == t && Agrees(tasks[t], p)
  }

  ghost predicate PlansOk(plans: map<ScanId, seq<Planned>>) {
    forall scan | scan in plans :: plans[scan] != [] && PlanShape(scan, plans[scan])
  }

  /** The first n entries of a plan have their rows. */
  ghost predicate Inserted(plan: seq<Planned>, n: nat, ids: set<TaskId>) {
    n <= |plan| && forall k | 0 <= k < n :: plan[k].id in ids
  }

  ghost predicate SubmissionOk(sub: Submission, plan: seq<Planned>, ids: set<TaskId>) {
    && Inserted(plan, sub.pos, ids)
    && (!sub.point.Inserting? ==> Inserted(plan, sub.pos + 1, ids))
  }

  ghost predicate SubmissionsOk(submissions: map<ScanId, Submission>, plans: map<ScanId, seq<Planned>>,
                                scans: map<ScanId, ScanStatus>, ids: set<TaskId>)
  {
    && plans.Keys == scans.Keys
    && forall scan | scan in submissions ::
         scan in scans && scans[scan].Pending? && SubmissionOk(submissions[scan], plans[scan], ids)
  }

  /** A scan that was ever `running` has all its planned rows. */
  ghost predicate ActivesOk(plans: map<ScanId, seq<Planned>>, scans: map<ScanId, ScanStatus>, ids: set<TaskId>) {
    forall scan | scan in scans && !scans[scan].Pending? ::
      scan in plans && Inserted(plans[scan], |plans[scan]|, ids)
  }

  ghost predicate MessagesOk(stream: seq<Message>, ids: set<TaskId>) {
    forall e | 0 <= e < |stream| :: stream[e].task in ids && stream[e].attempt >= 1
  }

  ghost predicate DispatcherOk(d: Dispatcher, ids: set<TaskId>) {
    d.Dispatching? ==> (forall t | t in d.todo :: t in ids) && forall t | t in d.sent :: t in ids
  }

  ghost predicate ClosingOk(closing: map<ScanId, Closing>, scans: map<ScanId, ScanStatus>) {
    forall scan | scan in closing ::
      && scan in scans && !scans[scan].Pending?
      && (closing[scan].Decided? ==> closing[scan].status.ScanCompleted? || closing[scan].status.ScanFailed?)
  }

  ghost predicate Basic(s: State) {
    && QueueOk(|s.stream|, s.cursor, s.pel, s.workers, s.claims)
    && RowsPlanned(s.tasks, s.plans)
    && PlansOk(s.plans)
    && SubmissionsOk(s.submissions, s.plans, s.scans, s.tasks.Keys)
    && ActivesOk(s.plans, s.scans, s.tasks.Keys)
    && MessagesOk(s.stream, s.tasks.Keys)
    && DispatcherOk(s.dispatcher, s.tasks.Keys)
    && ClosingOk(s.closing, s.scans)
  }

  lemma BasicInit(s: State)
    requires Init(s)
    ensures Basic(s)
  {
  }

  // Effects of the table operations.

  ghost predicate SameColumns(before: Tasks, after: Tasks) {
    forall t | t in before :: t in after && after[t].deps == before[t].deps &&
      after[t].gate == before[t].gate && after[t].maxAttempts == before[t].maxAttempts
  }

  /** Rows are never deleted and their planned columns never change; findings and
      stream entries are only added. */
  ghost predicate Grows(s: State, s': State) {
    SameColumns(s.tasks, s'.tasks) && s.findings <= s'.findings && s.stream <= s'.stream
  }

  lemma RowsKept(before: Tasks, after: Tasks, plans: map<ScanId, seq<Planned>>)
    requires RowsPlanned(before, plans) && SameColumns(before, after) && after.Keys == before.Keys
    ensures RowsPlanned(after, plans)
  {
    forall t | t in after
      ensures t.scan in plans && exists p | p in plans[t.scan] :: p.id == t && Agrees(after[t], p)
    {
      var p :| p in plans[t.scan] && p.id == t && Agrees(before[t], p);
      assert Agrees(after[t], p);
    }
  }

  lemma GrowsSubmit(s: State, a: Action)
    requires Enabled(s, a) && SubmitAction(a)
    ensures Grows(s, ApplySubmit(s, a))
  {
  }

  lemma GrowsWorker(s: State, a: Action)
    requires Enabled(s, a) && WorkerAction(a)
    ensures Grows(s, ApplyWorker(s, a)) && ApplyWorker(s, a).tasks.Keys == s.tasks.Keys
  {
  }

  lemma GrowsStep(s: State, a: Action)
    requires Enabled(s, a)
    ensures Grows(s, Apply(s, a)) && (!a.Insert? ==> Apply(s, a).tasks.Keys == s.tasks.Keys)
  {
    if SubmitAction(a) {
      GrowsSubmit(s, a);
    } else if WorkerAction(a) {
      GrowsWorker(s, a);
    }
  }

  lemma QueueWorker(s: State, a: Action)
    requires QueueOk(|s.stream|, s.cursor, s.pel, s.workers, s.claims) && Enabled(s, a) && WorkerAction(a)
    ensures var s' := ApplyWorker(s, a); QueueOk(|s'.stream|, s'.cursor, s'.pel, s'.workers, s'.claims)
  {
  }

  lemma QueueStep(s: State, a: Action)
    requires QueueOk(|s.stream|, s.cursor, s.pel, s.workers, s.claims) && Enabled(s, a)
    ensures var s' := Apply(s, a); QueueOk(|s'.stream|, s'.cursor, s'.pel, s'.workers, s'.claims)
  {
    if WorkerAction(a) {
      QueueWorker(s, a);
    }
  }

  lemma RowsInsert(s: State, scan: ScanId)
    requires RowsPlanned(s.tasks, s.plans) && PlansOk(s.plans) && Enabled(s, Insert(scan))
    ensures RowsPlanned(ApplySubmit(s, Insert(scan)).tasks, s.plans)
  {
    var p := Current(s, scan);
    assert p in s.plans[scan] && p.id.scan == scan && Agrees(FreshRow(p), p);
  }

  lemma RowsStep(s: State, a: Action)
    requires RowsPlanned(s.tasks, s.plans) && PlansOk(s.plans) && s.plans.Keys == s.scans.Keys && Enabled(s, a)
    ensures var s' := Apply(s, a); RowsPlanned(s'.tasks, s'.plans)
  {
    if a.Insert? {
      RowsInsert(s, a.scan);
    } else if a.Begin? {
      NewPlanKeepsRows(s.tasks, s.plans, a.scan, a.plan);
    } else {
      GrowsStep(s, a);
      KeepsPlans(s, a);
      RowsKept(s.tasks, Apply(s, a).tasks, s.plans);
    }
  }

  lemma KeepsPlans(s: State, a: Action)
    requires Enabled(s, a) && !a.Begin?
    ensures Apply(s, a).plans == s.plans
  {
    if SubmitAction(a) {
      assert ApplySubmit(s, a).plans == s.plans;
    }
  }

  lemma NewPlanKeepsRows(tasks: Tasks, plans: map<ScanId, seq<Planned>>, scan: ScanId, plan: seq<Planned>)
    requires RowsPlanned(tasks, plans) && scan !in plans
    ensures RowsPlanned(tasks, plans[scan := plan])
  {
    forall t | t in tasks
      ensures t.scan in plans && exists p | p in plans[scan := plan][t.scan] :: p.id == t && Agrees(tasks[t], p)
    {
      assert t.scan != scan;
    }
  }

  lemma PlansStep(s: State, a: Action)
    requires PlansOk(s.plans) && Enabled(s, a)
    ensures PlansOk(Apply(s, a).plans)
  {
    if !a.Begin? {
      KeepsPlans(s, a);
    }
  }

  lemma IdsGrow(submissions: map<ScanId, Submission>, plans: map<ScanId, seq<Planned>>,
                scans: map<ScanId, ScanStatus>, few: set<TaskId>, many: set<TaskId>)
    requires SubmissionsOk(submissions, plans, scans, few) && few <= many
    ensures SubmissionsOk(submissions, plans, scans, many)
  {
    forall scan | scan in submissions ensures SubmissionOk(submissions[scan], plans[scan], many) {
      assert SubmissionOk(submissions[scan], plans[scan], few);
    }
  }

  lemma SubmissionsSubmit(s: State, a: Action)
    requires SubmissionsOk(s.submissions, s.plans, s.scans, s.tasks.Keys) && Enabled(s, a) && SubmitAction(a)
    ensures var s' := ApplySubmit(s, a); SubmissionsOk(s'.submissions, s'.plans, s'.scans, s'.tasks.Keys)
  {
    var s' := ApplySubmit(s, a);
    IdsGrow(s.submissions, s.plans, s.scans, s.tasks.Keys, s'.tasks.Keys);
  }

  lemma SubmissionsStep(s: State, a: Action)
    requires SubmissionsOk(s.submissions, s.plans, s.scans, s.tasks.Keys)
    requires ClosingOk(s.closing, s.scans) && Enabled(s, a)
    ensures var s' := Apply(s, a); SubmissionsOk(s'.submissions, s'.plans, s'.scans, s'.tasks.Keys)
  {
    GrowsStep(s, a);
    if SubmitAction(a) {
      SubmissionsSubmit(s, a);
    }
  }

  lemma ActivesStep(s: State, a: Action)
    requires SubmissionsOk(s.submissions, s.plans, s.scans, s.tasks.Keys) && ActivesOk(s.plans, s.scans, s.tasks.Keys)
    requires ClosingOk(s.closing, s.scans) && Enabled(s, a)
    ensures var s' := Apply(s, a); ActivesOk(s'.plans, s'.scans, s'.tasks.Keys)
  {
    if SubmitAction(a) {
      ActivesSubmit(s, a);
      assert Apply(s, a) == ApplySubmit(s, a);
    } else if ClosingAction(a) {
      ActivesClosing(s, a);
      assert Apply(s, a) == ApplyClosing(s, a);
    } else {
      KeepsScans(s, a);
      KeepsPlans(s, a);
      GrowsStep(s, a);
    }
  }

  lemma ActivesSubmit(s: State, a: Action)
    requires SubmissionsOk(s.submissions, s.plans, s.scans, s.tasks.Keys) && ActivesOk(s.plans, s.scans, s.tasks.Keys)
    requires Enabled(s, a) && SubmitAction(a)
    ensures var s' := ApplySubmit(s, a); ActivesOk(s'.plans, s'.scans, s'.tasks.Keys)
  {
    if a.Finish? {
      assert SubmissionOk(s.submissions[a.scan], s.plans[a.scan], s.tasks.Keys);
    }
  }

  lemma ActivesClosing(s: State, a: Action)
    requires ActivesOk(s.plans, s.scans, s.tasks.Keys)
    requires ClosingOk(s.closing, s.scans) && Enabled(s, a) && ClosingAction(a)
    ensures var s' := ApplyClosing(s, a); ActivesOk(s'.plans, s'.scans, s'.tasks.Keys)
  {
  }

  lemma MessagesStep(s: State, a: Action)
    requires SubmissionsOk(s.submissions, s.plans, s.scans, s.tasks.Keys)
    requires MessagesOk(s.stream, s.tasks.Keys) && Enabled(s, a)
    requires DispatcherOk(s.dispatcher, s.tasks.Keys)
    ensures var s' := Apply(s, a); MessagesOk(s'.stream, s'.tasks.Keys)
  {
    if SubmitAction(a) {
      MessagesSubmit(s, a);
    } else if WorkerAction(a) {
      MessagesWorker(s, a);
    }
  }

  lemma MessagesSubmit(s: State, a: Action)
    requires SubmissionsOk(s.submissions, s.plans, s.scans, s.tasks.Keys)
    requires MessagesOk(s.stream, s.tasks.Keys) && Enabled(s, a) && SubmitAction(a)
    ensures var s' := ApplySubmit(s, a); MessagesOk(s'.stream, s'.tasks.Keys)
  {
    if a.Send? {
      assert SubmissionOk(s.submissions[a.scan], s.plans[a.scan], s.tasks.Keys);
    }
  }

  lemma MessagesWorker(s: State, a: Action)
    requires MessagesOk(s.stream, s.tasks.Keys) && Enabled(s, a) && WorkerAction(a)
    ensures var s' := ApplyWorker(s, a); MessagesOk(s'.stream, s'.tasks.Keys)
  {
  }

  lemma DispatcherStep(s: State, a: Action)
    requires DispatcherOk(s.dispatcher, s.tasks.Keys) && Enabled(s, a)
    ensures DispatcherOk(Apply(s, a).dispatcher, Apply(s, a).tasks.Keys)
  {
    if SubmitAction(a) {
      assert s.tasks.Keys <= ApplySubmit(s, a).tasks.Keys;
    }
  }

  lemma ClosingStep(s: State, a: Action)
    requires ClosingOk(s.closing, s.scans) && Enabled(s, a)
    ensures ClosingOk(Apply(s, a).closing, Apply(s, a).scans)
  {
    if SubmitAction(a) {
      ClosingSubmit(s, a);
      assert Apply(s, a) == ApplySubmit(s, a);
    } else if ClosingAction(a) {
      ClosingClosing(s, a);
      assert Apply(s, a) == ApplyClosing(s, a);
    } else {
      KeepsScans(s, a);
    }
  }

  lemma KeepsScans(s: State, a: Action)
    requires Enabled(s, a) && !SubmitAction(a) && !ClosingAction(a)
    ensures Apply(s, a).scans == s.scans && Apply(s, a).closing == s.closing && Apply(s, a).submissions == s.submissions
  {
  }

  lemma ClosingSubmit(s: State, a: Action)
    requires ClosingOk(s.closing, s.scans) && Enabled(s, a) && SubmitAction(a)
    ensures ClosingOk(s.closing, ApplySubmit(s, a).scans)
  {
  }

  lemma ClosingClosing(s: State, a: Action)
    requires ClosingOk(s.closing, s.scans) && Enabled(s, a) && ClosingAction(a)
    ensures ClosingOk(ApplyClosing(s, a).closing, ApplyClosing(s, a).scans)
  {
  }

  lemma BasicStep(s: State, a: Action)
    requires Basic(s) && Enabled(s, a)
    ensures Basic(Apply(s, a)) && Grows(s, Apply(s, a))
  {
    GrowsStep(s, a);
    QueueStep(s, a);
    RowsStep(s, a);
    PlansStep(s, a);
    SubmissionsStep(s, a);
    ActivesStep(s, a);
    MessagesStep(s, a);
    DispatcherStep(s, a);
    ClosingStep(s, a);
  }

  lemma {:induction false} BasicPath(states: seq<State>, acts: seq<Action>, n: nat)
    requires Path(states, acts) && Basic(states[0]) && n <= |acts|
    ensures Basic(states[n])
  {
    if n > 0 {
      BasicPath(states, acts, n - 1);
      RunStep(states, acts, n - 1);
      BasicStep(states[n - 1], acts[n - 1]);
    }
  }

  lemma BasicRun(states: seq<State>, acts: seq<Action>, n: nat)
    requires IsRun(states, acts) && n <= |acts|
    ensures Basic(states[n])
  {
    BasicInit(states[0]);
    BasicPath(states, acts, n);
  }

  lemma BasicExec(s: State, acts: seq<Action>, s': State)
    requires Basic(s) && Exec(s, acts, s')
    ensures Basic(s')
  {
    var states :| Leads(states, s, acts, s');
    BasicPath(states, acts, |acts|);
  }
}
