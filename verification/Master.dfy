/** The master's coroutines: a submission, the dispatcher's round and the closing of
    scans, statement by statement, with everybody else running in between. */
module Master {
  import opened Prelude
  import opened Graph
  import opened Planner
  import opened Lifecycle
  import opened Runtime
  import opened Traces

  // ---------------------------------------------------------- submission

  function SubmissionOf(scan: ScanId): Coroutine {
    (a: Action) => SubmitAction(a) && a.scan == scan
  }

  ghost predicate Standing(s: State, scan: ScanId, plan: seq<Planned>, sub: Submission) {
    && scan in s.submissions && s.submissions[scan] == sub
    && scan in s.plans && s.plans[scan] == plan && scan in s.scans
  }

  lemma OtherKeepsSubmission(s: State, a: Action, scan: ScanId, plan: seq<Planned>, sub: Submission)
    requires Enabled(s, a) && !SubmissionOf(scan)(a) && Standing(s, scan, plan, sub)
    ensures Standing(Apply(s, a), scan, plan, sub)
  {
    if SubmitAction(a) {
      assert Apply(s, a) == ApplySubmit(s, a);
    } else if ClosingAction(a) {
      assert Apply(s, a) == ApplyClosing(s, a);
    } else {
      KeepsScans(s, a);
      KeepsPlans(s, a);
    }
  }

  lemma {:induction false} OthersKeepSubmission(states: seq<State>, acts: seq<Action>, n: nat,
                                                scan: ScanId, plan: seq<Planned>, sub: Submission)
    requires Path(states, acts) && n <= |acts|
    requires (forall a | a in acts :: !SubmissionOf(scan)(a)) && Standing(states[0], scan, plan, sub)
    ensures Standing(states[n], scan, plan, sub)
  {
    if n > 0 {
      OthersKeepSubmission(states, acts, n - 1, scan, plan, sub);
      assert StepAt(states, acts, n - 1) && acts[n - 1] in acts;
      OtherKeepsSubmission(states[n - 1], acts[n - 1], scan, plan, sub);
    }
  }

  method AwaitSubmitting(p: Platform, scan: ScanId, plan: seq<Planned>, sub: Submission,
                         others: State -> State, ghost log: Log)
    returns (ghost log': Log)
    requires Fair(SubmissionOf(scan), others) && Logged(log, SubmissionOf(scan), p.Now())
    requires Standing(p.Now(), scan, plan, sub)
    modifies p
    ensures Logged(log', SubmissionOf(scan), p.Now()) && Continues(log, log', [])
    ensures Standing(p.Now(), scan, plan, sub)
  {
    ghost var before := p.Now();
    LoggedBasic(log, SubmissionOf(scan), before);
    p.Await(others);
    ghost var states, acts;
    log', states, acts := OthersStep(log, SubmissionOf(scan), before, p.Now());
    OthersKeepSubmission(states, acts, |acts|, scan, plan, sub);
  }

  // The statements of the insertion loop.

  method InsertRowOf(p: Platform, scan: ScanId) returns (id: TaskId)
    requires Enabled(p.Now(), Insert(scan))
    modifies p
    ensures Next(old(p.Now()), Insert(scan), p.Now()) && id == old(Current(p.Now(), scan)).id
  {
    ghost var s := p.Now();
    var pos := p.submissions[scan].pos;
    var planned := p.plans[scan][pos];
    id := p.InsertTask(planned);
    p.submissions := p.submissions[scan :=
      if planned.deps == [] then Submission(pos, Sending) else Submission(pos + 1, Inserting)];
    assert p.Now() == ApplySubmit(s, Insert(scan));
  }

  method SendRootOf(p: Platform, scan: ScanId, id: TaskId)
    requires Enabled(p.Now(), Send(scan)) && id == Current(p.Now(), scan).id
    modifies p
    ensures Next(old(p.Now()), Send(scan), p.Now())
  {
    ghost var s := p.Now();
    var _ := p.Enqueue(Message(id, 1));
    p.submissions := p.submissions[scan := Submission(p.submissions[scan].pos, Marking)];
    assert p.Now() == ApplySubmit(s, Send(scan));
  }

  method MarkRootOf(p: Platform, scan: ScanId, id: TaskId)
    requires Enabled(p.Now(), Mark(scan)) && id == Current(p.Now(), scan).id
    modifies p
    ensures Next(old(p.Now()), Mark(scan), p.Now())
  {
    ghost var s := p.Now();
    p.MarkDispatched([id]);
    p.submissions := p.submissions[scan := Submission(p.submissions[scan].pos + 1, Inserting)];
    assert p.Now() == ApplySubmit(s, Mark(scan));
  }

  method OpenScan(p: Platform, scan: ScanId, plan: seq<Planned>)
    requires Enabled(p.Now(), Begin(scan, plan))
    modifies p
    ensures Next(old(p.Now()), Begin(scan, plan), p.Now())
  {
    ghost var s := p.Now();
    p.scans := p.scans[scan := Pending];
    p.plans := p.plans[scan := plan];
    p.submissions := p.submissions[scan := Submission(0, Inserting)];
    assert p.Now() == ApplySubmit(s, Begin(scan, plan));
  }

  method SetRunning(p: Platform, scan: ScanId)
    requires Enabled(p.Now(), Finish(scan))
    modifies p
    ensures Next(old(p.Now()), Finish(scan), p.Now())
  {
    ghost var s := p.Now();
    p.scans := p.scans[scan := Active];
    p.submissions := p.submissions - {scan};
    assert p.Now() == ApplySubmit(s, Finish(scan));
  }

  /** The statements for one plan entry. */
  function EntrySteps(scan: ScanId, planned: Planned): seq<Action> {
    if planned.deps == [] then [Insert(scan), Send(scan), Mark(scan)] else [Insert(scan)]
  }

  function LoopSteps(scan: ScanId, plan: seq<Planned>): seq<Action> {
    if plan == [] then [] else LoopSteps(scan, plan[..|plan| - 1]) + EntrySteps(scan, plan[|plan| - 1])
  }

  function Roots(plan: seq<Planned>): nat {
    if plan == [] then 0 else Roots(plan[..|plan| - 1]) + if plan[|plan| - 1].deps == [] then 1 else 0
  }

  ghost function RootPlaces(plan: seq<Planned>): set<nat> {
    set i: nat | i < |plan| && plan[i].deps == []
  }

  lemma {:induction false} RootsCount(plan: seq<Planned>)
    ensures Roots(plan) == |RootPlaces(plan)|
  {
    if plan != [] {
      var n := |plan| - 1;
      RootsCount(plan[..n]);
      var before := RootPlaces(plan[..n]);
      if plan[n].deps == [] {
        assert RootPlaces(plan) == before + {n};
      } else {
        assert RootPlaces(plan) == before;
      }
    }
  }

  ghost predicate Went(log: Log, log': Log, scan: ScanId, now: State, steps: seq<Action>) {
    Logged(log', SubmissionOf(scan), now) && Continues(log, log', steps)
  }

  method DoInsert(p: Platform, scan: ScanId, plan: seq<Planned>, i: nat, others: State -> State, ghost log: Log)
    returns (id: TaskId, ghost log': Log)
    requires Fair(SubmissionOf(scan), others) && Logged(log, SubmissionOf(scan), p.Now())
    requires i < |plan| && Standing(p.Now(), scan, plan, Submission(i, Inserting))
    modifies p
    ensures Went(log, log', scan, p.Now(), [Insert(scan)]) && id == plan[i].id
    ensures Standing(p.Now(), scan, plan,
              if plan[i].deps == [] then Submission(i, Sending) else Submission(i + 1, Inserting))
  {
    ghost var waited := AwaitSubmitting(p, scan, plan, Submission(i, Inserting), others, log);
    ghost var s := p.Now();
    id := InsertRowOf(p, scan);
    log' := OwnStep(waited, SubmissionOf(scan), s, Insert(scan), p.Now());
    ContinuesOn(log, waited, log', [], [Insert(scan)]);
  }

  method DoSend(p: Platform, scan: ScanId, plan: seq<Planned>, i: nat, id: TaskId,
                others: State -> State, ghost log: Log)
    returns (ghost log': Log)
    requires Fair(SubmissionOf(scan), others) && Logged(log, SubmissionOf(scan), p.Now())
    requires i < |plan| && id == plan[i].id && Standing(p.Now(), scan, plan, Submission(i, Sending))
    modifies p
    ensures Went(log, log', scan, p.Now(), [Send(scan)])
    ensures Standing(p.Now(), scan, plan, Submission(i, Marking))
  {
    ghost var waited := AwaitSubmitting(p, scan, plan, Submission(i, Sending), others, log);
    ghost var s := p.Now();
    SendRootOf(p, scan, id);
    log' := OwnStep(waited, SubmissionOf(scan), s, Send(scan), p.Now());
    ContinuesOn(log, waited, log', [], [Send(scan)]);
  }

  method DoMark(p: Platform, scan: ScanId, plan: seq<Planned>, i: nat, id: TaskId,
                others: State -> State, ghost log: Log)
    returns (ghost log': Log)
    requires Fair(SubmissionOf(scan), others) && Logged(log, SubmissionOf(scan), p.Now())
    requires i < |plan| && id == plan[i].id && Standing(p.Now(), scan, plan, Submission(i, Marking))
    modifies p
    ensures Went(log, log', scan, p.Now(), [Mark(scan)])
    ensures Standing(p.Now(), scan, plan, Submission(i + 1, Inserting))
  {
    ghost var waited := AwaitSubmitting(p, scan, plan, Submission(i, Marking), others, log);
    ghost var s := p.Now();
    MarkRootOf(p, scan, id);
    log' := OwnStep(waited, SubmissionOf(scan), s, Mark(scan), p.Now());
    ContinuesOn(log, waited, log', [], [Mark(scan)]);
  }

  /** One turn of the insertion loop. */
  method SubmitEntry(p: Platform, scan: ScanId, plan: seq<Planned>, i: nat, others: State -> State, ghost log: Log)
    returns (sent: bool, ghost log': Log)
    requires Fair(SubmissionOf(scan), others) && Logged(log, SubmissionOf(scan), p.Now())
    requires i < |plan| && Standing(p.Now(), scan, plan, Submission(i, Inserting))
    modifies p
    ensures Went(log, log', scan, p.Now(), EntrySteps(scan, plan[i])) && (sent <==> plan[i].deps == [])
    ensures Standing(p.Now(), scan, plan, Submission(i + 1, Inserting))
  {
    ghost var first, second;
    var id;
    id, log' := DoInsert(p, scan, plan, i, others, log);
    if plan[i].deps != [] {
      return false, log';
    }
    first := log';
    second := DoSend(p, scan, plan, i, id, others, first);
    ContinuesOn(log, first, second, [Insert(scan)], [Send(scan)]);
    log' := DoMark(p, scan, plan, i, id, others, second);
    ContinuesOn(log, second, log', [Insert(scan), Send(scan)], [Mark(scan)]);
    sent := true;
  }

  lemma LoopNext(scan: ScanId, plan: seq<Planned>, i: nat)
    requires i < |plan|
    ensures LoopSteps(scan, plan[..i + 1]) == LoopSteps(scan, plan[..i]) + EntrySteps(scan, plan[i])
    ensures Roots(plan[..i + 1]) == Roots(plan[..i]) + if plan[i].deps == [] then 1 else 0
  {
    assert plan[..i + 1][..i] == plan[..i];
  }

  method InsertAndSend(p: Platform, scan: ScanId, plan: seq<Planned>, others: State -> State, ghost log: Log)
    returns (enqueued: nat, ghost log': Log)
    requires Fair(SubmissionOf(scan), others) && Logged(log, SubmissionOf(scan), p.Now())
    requires Standing(p.Now(), scan, plan, Submission(0, Inserting))
    modifies p
    ensures Went(log, log', scan, p.Now(), LoopSteps(scan, plan)) && enqueued == Roots(plan)
    ensures Standing(p.Now(), scan, plan, Submission(|plan|, Inserting))
  {
    enqueued, log' := 0, log;
    for i := 0 to |plan|
      invariant Went(log, log', scan, p.Now(), LoopSteps(scan, plan[..i]))
      invariant Standing(p.Now(), scan, plan, Submission(i, Inserting)) && enqueued == Roots(plan[..i])
    {
      ghost var before := log';
      var sent;
      sent, log' := SubmitEntry(p, scan, plan, i, others, before);
      ContinuesOn(log, before, log', LoopSteps(scan, plan[..i]), EntrySteps(scan, plan[i]));
      LoopNext(scan, plan, i);
      if sent {
        enqueued := enqueued + 1;
      }
    }
    assert plan[..|plan|] == plan;
  }

  method FinishSubmission(p: Platform, scan: ScanId, plan: seq<Planned>, others: State -> State, ghost log: Log)
    returns (ghost log': Log)
    requires Fair(SubmissionOf(scan), others) && Logged(log, SubmissionOf(scan), p.Now())
    requires Standing(p.Now(), scan, plan, Submission(|plan|, Inserting))
    modifies p
    ensures Went(log, log', scan, p.Now(), [Finish(scan)])
    ensures scan in p.scans && p.scans[scan].Active? && scan !in p.submissions
  {
    ghost var waited := AwaitSubmitting(p, scan, plan, Submission(|plan|, Inserting), others, log);
    ghost var s := p.Now();
    SetRunning(p, scan);
    log' := OwnStep(waited, SubmissionOf(scan), s, Finish(scan), p.Now());
    ContinuesOn(log, waited, log', [], [Finish(scan)]);
  }

  method BeginSubmission(p: Platform, scan: ScanId, plan: seq<Planned>)
    returns (ghost log: Log)
    requires Basic(p.Now()) && Enabled(p.Now(), Begin(scan, plan))
    modifies p
    ensures Logged(log, SubmissionOf(scan), p.Now()) && log.own == [Begin(scan, plan)]
    ensures log.states[0] == old(p.Now()) && Standing(p.Now(), scan, plan, Submission(0, Inserting))
  {
    ghost var s, start := p.Now(), NewLog(p.Now());
    OpenScan(p, scan, plan);
    log := OwnStep(start, SubmissionOf(scan), s, Begin(scan, plan), p.Now());
  }

  /** A submission: rows are inserted one at a time while roots are already being
      sent, and only then does the scan become `running`. */
  method SubmitScan(p: Platform, scan: ScanId, plan: seq<Planned>, others: State -> State)
    returns (enqueued: nat, ghost log: Log)
    requires Fair(SubmissionOf(scan), others) && Basic(p.Now())
    requires scan !in p.scans && plan != [] && PlanShape(scan, plan)
    modifies p
    ensures Logged(log, SubmissionOf(scan), p.Now()) && log.states[0] == old(p.Now())
    ensures log.own == [Begin(scan, plan)] + LoopSteps(scan, plan) + [Finish(scan)]
    ensures enqueued == |RootPlaces(plan)| && scan in p.scans && p.scans[scan].Active? && scan !in p.submissions
  {
    ghost var begun := BeginSubmission(p, scan, plan);
    ghost var looped;
    enqueued, looped := InsertAndSend(p, scan, plan, others, begun);
    RootsCount(plan);
    log := FinishSubmission(p, scan, plan, others, looped);
  }

  // ---------------------------------------------------------- dispatcher

  function Dispatching(): Coroutine {
    (a: Action) => DispatchAction(a)
  }

  lemma {:induction false} OthersKeepDispatcher(states: seq<State>, acts: seq<Action>, n: nat)
    requires Path(states, acts) && n <= |acts| && forall a | a in acts :: !Dispatching()(a)
    ensures states[n].dispatcher == states[0].dispatcher
  {
    if n > 0 {
      OthersKeepDispatcher(states, acts, n - 1);
      assert StepAt(states, acts, n - 1) && acts[n - 1] in acts;
      OtherKeepsDispatcher(states[n - 1], acts[n - 1]);
    }
  }

  lemma OtherKeepsDispatcher(s: State, a: Action)
    requires Enabled(s, a) && !DispatchAction(a)
    ensures Apply(s, a).dispatcher == s.dispatcher
  {
  }

  method AwaitDispatching(p: Platform, others: State -> State, ghost log: Log) returns (ghost log': Log)
    requires Fair(Dispatching(), others) && Logged(log, Dispatching(), p.Now())
    modifies p
    ensures Logged(log', Dispatching(), p.Now()) && Continues(log, log', [])
    ensures p.dispatcher == old(p.dispatcher)
  {
    ghost var before := p.Now();
    LoggedBasic(log, Dispatching(), before);
    p.Await(others);
    ghost var states, acts;
    log', states, acts := OthersStep(log, Dispatching(), before, p.Now());
    OthersKeepDispatcher(states, acts, |acts|);
  }

  method TakeBatch(p: Platform) returns (batch: seq<TaskId>)
    requires p.dispatcher.Idle?
    modifies p
    ensures batch == [] ==> p.Now() == old(p.Now()) && forall t :: !Ready(p.Now(), t)
    ensures batch != [] ==> Next(old(p.Now()), ReadReady(batch), p.Now())
    ensures batch != [] ==> p.dispatcher == Dispatcher.Dispatching(batch, [])
  {
    ghost var s := p.Now();
    batch := p.ReadyTasks();
    if batch != [] {
      p.dispatcher := Dispatcher.Dispatching(batch, []);
      assert p.Now() == ApplyDispatch(s, ReadReady(batch));
    }
  }

  method SendNext(p: Platform)
    requires Enabled(p.Now(), SendReady)
    modifies p
    ensures Next(old(p.Now()), SendReady, p.Now())
  {
    ghost var s := p.Now();
    var d := p.dispatcher;
    var _ := p.Enqueue(Message(d.todo[0], 1));
    p.dispatcher := Dispatcher.Dispatching(d.todo[1..], d.sent + [d.todo[0]]);
    assert p.Now() == ApplyDispatch(s, SendReady);
  }

  method MarkBatch(p: Platform)
    requires Enabled(p.Now(), MarkReady)
    modifies p
    ensures Next(old(p.Now()), MarkReady, p.Now())
  {
    ghost var s := p.Now();
    p.MarkDispatched(p.dispatcher.sent);
    p.dispatcher := Idle;
    assert p.Now() == ApplyDispatch(s, MarkReady);
  }

  function Sends(n: nat): seq<Action> {
    seq(n, i => SendReady)
  }

  method DoSendNext(p: Platform, batch: seq<TaskId>, i: nat, others: State -> State, ghost log: Log)
    returns (ghost log': Log)
    requires Fair(Dispatching(), others) && Logged(log, Dispatching(), p.Now())
    requires i < |batch| && p.dispatcher == Dispatcher.Dispatching(batch[i..], batch[..i])
    modifies p
    ensures Logged(log', Dispatching(), p.Now()) && Continues(log, log', [SendReady])
    ensures p.dispatcher == Dispatcher.Dispatching(batch[i + 1..], batch[..i + 1])
  {
    ghost var waited := AwaitDispatching(p, others, log);
    ghost var s := p.Now();
    SendNext(p);
    assert batch[i..][1..] == batch[i + 1..] && batch[..i] + [batch[i..][0]] == batch[..i + 1];
    log' := OwnStep(waited, Dispatching(), s, SendReady, p.Now());
    ContinuesOn(log, waited, log', [], [SendReady]);
  }

  method SendBatch(p: Platform, batch: seq<TaskId>, others: State -> State, ghost log: Log) returns (ghost log': Log)
    requires Fair(Dispatching(), others) && Logged(log, Dispatching(), p.Now())
    requires p.dispatcher == Dispatcher.Dispatching(batch, [])
    modifies p
    ensures Logged(log', Dispatching(), p.Now()) && Continues(log, log', Sends(|batch|))
    ensures p.dispatcher == Dispatcher.Dispatching([], batch)
  {
    log' := log;
    for i := 0 to |batch|
      invariant Logged(log', Dispatching(), p.Now()) && Continues(log, log', Sends(i))
      invariant p.dispatcher == Dispatcher.Dispatching(batch[i..], batch[..i])
    {
      ghost var before := log';
      log' := DoSendNext(p, batch, i, others, before);
      ContinuesOn(log, before, log', Sends(i), [SendReady]);
      assert Sends(i) + [SendReady] == Sends(i + 1);
    }
  }

  /** One round of the dispatcher: read, send each, mark all that were sent. */
  method DispatchReadyTasks(p: Platform, others: State -> State) returns (batch: seq<TaskId>, ghost log: Log)
    requires Fair(Dispatching(), others) && Basic(p.Now()) && p.dispatcher.Idle?
    modifies p
    ensures Logged(log, Dispatching(), p.Now()) && log.states[0] == old(p.Now()) && p.dispatcher.Idle?
    ensures log.own == if batch == [] then [] else [ReadReady(batch)] + Sends(|batch|) + [MarkReady]
    ensures batch == [] ==> forall t :: !Ready(p.Now(), t)
  {
    log := AwaitDispatching(p, others, NewLog(p.Now()));
    ghost var s, before := p.Now(), log;
    batch := TakeBatch(p);
    if batch == [] {
      return;
    }
    log := OwnStep(before, Dispatching(), s, ReadReady(batch), p.Now());
    before := log;
    log := SendBatch(p, batch, others, before);
    log := MarkSent(p, batch, others, log);
  }

  method MarkSent(p: Platform, batch: seq<TaskId>, others: State -> State, ghost log: Log) returns (ghost log': Log)
    requires Fair(Dispatching(), others) && Logged(log, Dispatching(), p.Now())
    requires p.dispatcher == Dispatcher.Dispatching([], batch)
    modifies p
    ensures Logged(log', Dispatching(), p.Now()) && Continues(log, log', [MarkReady]) && p.dispatcher.Idle?
  {
    ghost var waited := AwaitDispatching(p, others, log);
    ghost var s := p.Now();
    MarkBatch(p);
    log' := OwnStep(waited, Dispatching(), s, MarkReady, p.Now());
    ContinuesOn(log, waited, log', [], [MarkReady]);
  }
}
