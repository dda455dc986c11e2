/** What clean runs keep about deliveries and rows: one live delivery per unfinished
    dispatched task, none for an undispatched one, and row states that fit. */
module CleanFlow {
  import opened Prelude
  import opened Graph
  import opened Planner
  import opened Lifecycle
  import opened CleanRuns

  /** Undelivered, or with a handler that can still act on its row. */
  predicate Live(cursor: nat, workers: map<nat, Phase>, e: nat) {
    e >= cursor || (e in workers && workers[e].Live())
  }

  predicate Waiting(state: TaskState) {
    state.Queued? || state.Aborted?
  }

  ghost predicate OneDelivery(stream: seq<Message>, cursor: nat, workers: map<nat, Phase>) {
    forall e: nat, f: nat | e < |stream| && f < |stream| && stream[e].task == stream[f].task &&
      Live(cursor, workers, e) && Live(cursor, workers, f) :: e == f
  }

  /** A live delivery's row is running iff its handler owns it, else it waits. */
  ghost predicate RowsFit(tasks: Tasks, stream: seq<Message>, cursor: nat, workers: map<nat, Phase>) {
    forall e: nat | e < |stream| ::
      && stream[e].task in tasks && tasks[stream[e].task].dispatched
      && 1 <= stream[e].attempt <= tasks[stream[e].task].maxAttempts
      && (Live(cursor, workers, e) ==>
            if e in workers && Owning(workers[e]) then tasks[stream[e].task].state.Running?
            else Waiting(tasks[stream[e].task].state))
      && (e in workers && workers[e].RetryPending? ==> stream[e].attempt < tasks[stream[e].task].maxAttempts)
  }

  ghost predicate HasLive(t: TaskId, stream: seq<Message>, cursor: nat, workers: map<nat, Phase>) {
    exists e: nat :: e < |stream| && stream[e].task == t && Live(cursor, workers, e)
  }

  ghost predicate TasksFit(tasks: Tasks, stream: seq<Message>, cursor: nat, workers: map<nat, Phase>) {
    forall t | t in tasks ::
      && tasks[t].maxAttempts >= 1
      && (!tasks[t].dispatched ==> Waiting(tasks[t].state))
      && (tasks[t].dispatched && !tasks[t].state.Terminal() ==> HasLive(t, stream, cursor, workers))
  }

  ghost predicate Flow(tasks: Tasks, stream: seq<Message>, cursor: nat, workers: map<nat, Phase>) {
    && OneDelivery(stream, cursor, workers)
    && RowsFit(tasks, stream, cursor, workers)
    && TasksFit(tasks, stream, cursor, workers)
    && cursor <= |stream| && forall e | e in workers :: e < cursor
  }

  ghost predicate FlowOf(s: State) {
    Flow(s.tasks, s.stream, s.cursor, s.workers) && s.pel == s.workers.Keys
  }

  // ------------------------------------------------------------ worker steps

  lemma DeliverFlow(s: State)
    requires FlowOf(s) && Enabled(s, Deliver)
    ensures FlowOf(ApplyWorker(s, Deliver))
  {
    var s' := ApplyWorker(s, Deliver);
    assert forall e: nat :: Live(s'.cursor, s'.workers, e) == Live(s.cursor, s.workers, e);
    forall t | t in s.tasks && HasLive(t, s.stream, s.cursor, s.workers)
      ensures HasLive(t, s'.stream, s'.cursor, s'.workers)
    {
    }
  }

  /** A handler moves on, its delivery staying live, and its row may change. */
  lemma StaysLive(s: State, e: nat, phase: Phase, row: Row)
    requires FlowOf(s) && e < |s.stream| && e in s.workers && s.workers[e].Live() && phase.Live()
    requires row.dispatched && row.maxAttempts == s.tasks[s.stream[e].task].maxAttempts
    requires if Owning(phase) then row.state.Running? else Waiting(row.state)
    requires phase.RetryPending? ==> s.stream[e].attempt < row.maxAttempts
    ensures Flow(s.tasks[s.stream[e].task := row], s.stream, s.cursor, s.workers[e := phase])
  {
    var tasks, workers := s.tasks[s.stream[e].task := row], s.workers[e := phase];
    assert forall f: nat :: Live(s.cursor, workers, f) == Live(s.cursor, s.workers, f);
    forall t | t in s.tasks && HasLive(t, s.stream, s.cursor, s.workers)
      ensures HasLive(t, s.stream, s.cursor, workers)
    {
    }
    forall f: nat | f < |s.stream| && s.stream[f].task == s.stream[e].task && f != e
      ensures !Live(s.cursor, s.workers, f)
    {
      assert Live(s.cursor, s.workers, e);
    }
  }

  /** A handler is through with its row, which is terminal. */
  lemma GoesQuiet(s: State, e: nat, phase: Phase, row: Row)
    requires FlowOf(s) && e < |s.stream| && e in s.workers && !phase.Live()
    requires row.dispatched && row.maxAttempts == s.tasks[s.stream[e].task].maxAttempts && row.state.Terminal()
    requires s.workers[e].Live() || row == s.tasks[s.stream[e].task]
    ensures Flow(s.tasks[s.stream[e].task := row], s.stream, s.cursor, s.workers[e := phase])
  {
    var task, tasks, workers := s.stream[e].task, s.tasks[s.stream[e].task := row], s.workers[e := phase];
    assert forall f: nat :: Live(s.cursor, workers, f) ==> Live(s.cursor, s.workers, f);
    forall t | t in s.tasks && t != task && HasLive(t, s.stream, s.cursor, s.workers)
      ensures HasLive(t, s.stream, s.cursor, workers)
    {
      var f: nat :| f < |s.stream| && s.stream[f].task == t && Live(s.cursor, s.workers, f);
      assert Live(s.cursor, workers, f);
    }
    if s.workers[e].Live() {
      forall f: nat | f < |s.stream| && s.stream[f].task == task && f != e
        ensures !Live(s.cursor, s.workers, f)
      {
        assert Live(s.cursor, s.workers, e);
      }
    }
  }

  lemma ClaimFlow(s: State, e: nat)
    requires FlowOf(s) && Enabled(s, TryClaim(e))
    ensures FlowOf(ApplyWorker(s, TryClaim(e)))
  {
    if Claimable(s, e) {
      StaysLive(s, e, Claimed, s.tasks[s.stream[e].task].(state := Running));
    } else {
      UnclaimedFlow(s, e);
    }
  }

  lemma UnclaimedFlow(s: State, e: nat)
    requires FlowOf(s) && Enabled(s, TryClaim(e)) && !Claimable(s, e)
    ensures FlowOf(ApplyWorker(s, TryClaim(e)))
  {
    var t := s.stream[e].task;
    GoesQuiet(s, e, Unclaimable, s.tasks[t]);
    assert s.tasks[t := s.tasks[t]] == s.tasks;
  }

  lemma RecordFlow(s: State, e: nat, types: set<string>)
    requires FlowOf(s) && Enabled(s, Record(e, types))
    ensures FlowOf(ApplyWorker(s, Record(e, types)))
  {
    var t := s.stream[e].task;
    StaysLive(s, e, Recorded, s.tasks[t]);
    assert s.tasks[t := s.tasks[t]] == s.tasks;
  }

  lemma ConcludeFlow(s: State, e: nat, v: Verdict)
    requires FlowOf(s) && Enabled(s, Conclude(e, v))
    ensures FlowOf(ApplyWorker(s, Conclude(e, v)))
  {
    var row := s.tasks[s.stream[e].task].(state := v.State(), result := Some(v));
    GoesQuiet(s, e, if v.Cascades() then Cascading else Finished, row);
  }

  lemma RetryFlow(s: State, e: nat)
    requires FlowOf(s) && Enabled(s, Retry(e))
    ensures FlowOf(ApplyWorker(s, Retry(e)))
  {
    StaysLive(s, e, RetryPending, s.tasks[s.stream[e].task].(state := Queued));
  }

  lemma ResendFlow(s: State, e: nat)
    requires FlowOf(s) && Enabled(s, Resend(e))
    ensures FlowOf(ApplyWorker(s, Resend(e)))
  {
    var s' := ApplyWorker(s, Resend(e));
    var m := Message(s.stream[e].task, s.stream[e].attempt + 1);
    assert Live(s.cursor, s.workers, e);
    HandsOver(s.tasks, s.stream, s.cursor, s.workers, e, m);
    assert s'.stream == s.stream + [m];
  }

  /** The live delivery of an unfinished task passes its liveness to a new entry. */
  lemma HandsOver(tasks: Tasks, stream: seq<Message>, cursor: nat, workers: map<nat, Phase>, e: nat, m: Message)
    requires Flow(tasks, stream, cursor, workers) && e in workers && workers[e].RetryPending?
    requires Live(cursor, workers, e) && m == Message(stream[e].task, stream[e].attempt + 1)
    ensures Flow(tasks, stream + [m], cursor, workers[e := RetrySent])
  {
    var after, w := stream + [m], workers[e := RetrySent];
    assert Live(cursor, w, |stream|) && after[|stream|] == m;
    forall f: nat | f < |stream| ensures Live(cursor, w, f) <==> Live(cursor, workers, f) && f != e {
    }
    forall t | t in tasks && HasLive(t, stream, cursor, workers) ensures HasLive(t, after, cursor, w) {
      var f: nat :| f < |stream| && stream[f].task == t && Live(cursor, workers, f);
      assert if f == e then after[|stream|].task == t else after[f].task == t && Live(cursor, w, f);
    }
  }

  lemma AckFlow(s: State, e: nat)
    requires FlowOf(s) && Enabled(s, Ack(e))
    ensures FlowOf(ApplyWorker(s, Ack(e)))
  {
    SameLiveness(s.tasks, s.stream, s.cursor, s.workers, ApplyWorker(s, Ack(e)).workers);
  }

  /** Aborting queued rows keeps every fit. */
  ghost predicate OnlyAborts(before: Tasks, after: Tasks) {
    && after.Keys == before.Keys
    && forall t | t in before ::
         after[t] == before[t] || (before[t].state.Queued? && after[t] == before[t].(state := Aborted))
  }

  lemma AbortFlow(tasks: Tasks, after: Tasks, stream: seq<Message>, cursor: nat, workers: map<nat, Phase>)
    requires Flow(tasks, stream, cursor, workers) && OnlyAborts(tasks, after)
    ensures Flow(after, stream, cursor, workers)
  {
  }

  lemma CascadeAborts(tasks: Tasks, scan: ScanId, failed: StepName)
    ensures OnlyAborts(tasks, AbortRows(tasks, scan, failed))
  {
  }

  lemma CascadeFlow(s: State, e: nat)
    requires FlowOf(s) && Enabled(s, Cascade(e))
    ensures FlowOf(ApplyWorker(s, Cascade(e)))
  {
    var s', t := ApplyWorker(s, Cascade(e)), s.stream[e].task;
    CascadeAborts(s.tasks, t.scan, t.step);
    AbortFlow(s.tasks, s'.tasks, s.stream, s.cursor, s.workers);
    FinishQuiet(s'.tasks, s.stream, s.cursor, s.workers, e);
  }

  lemma FinishQuiet(tasks: Tasks, stream: seq<Message>, cursor: nat, workers: map<nat, Phase>, e: nat)
    requires Flow(tasks, stream, cursor, workers) && e in workers && workers[e].Cascading?
    ensures Flow(tasks, stream, cursor, workers[e := Finished])
  {
    SameLiveness(tasks, stream, cursor, workers, workers[e := Finished]);
  }

  /** Only which deliveries are live, owned or awaiting a re-send matters. */
  lemma SameLiveness(tasks: Tasks, stream: seq<Message>, cursor: nat, w: map<nat, Phase>, w': map<nat, Phase>)
    requires Flow(tasks, stream, cursor, w) && forall e | e in w' :: e in w
    requires forall e: nat :: Live(cursor, w', e) == Live(cursor, w, e)
    requires forall e | e in w && w[e].Live() :: e in w' && w'[e] == w[e]
    ensures Flow(tasks, stream, cursor, w')
  {
    forall t | t in tasks && HasLive(t, stream, cursor, w) ensures HasLive(t, stream, cursor, w') {
    }
  }

  lemma WorkFlow(s: State, a: Action)
    requires FlowOf(s) && Possible(s, Work(a))
    ensures FlowOf(ApplyWorker(s, a))
  {
    match a
    case Deliver => DeliverFlow(s);
    case TryClaim(e) => ClaimFlow(s, e);
    case Record(e, types) => RecordFlow(s, e, types);
    case Conclude(e, v) => ConcludeFlow(s, e, v);
    case Retry(e) => RetryFlow(s, e);
    case Cascade(e) => CascadeFlow(s, e);
    case Resend(e) => ResendFlow(s, e);
    case Ack(e) => AckFlow(s, e);
  }

  // ------------------------------------------------------------ master moves

  /** New first messages for tasks that had none, whose rows become dispatched. */
  lemma SentFlow(s: State, tasks: Tasks, sent: seq<Message>)
    requires FlowOf(s) && s.tasks.Keys <= tasks.Keys
    requires forall i, j | 0 <= i < j < |sent| :: sent[i].task != sent[j].task
    requires forall m | m in sent :: m.attempt == 1 && m.task in tasks && tasks[m.task].dispatched &&
               tasks[m.task].state.Queued? && (m.task in s.tasks ==> !s.tasks[m.task].dispatched)
    requires forall t | t in s.tasks && Message(t, 1) !in sent :: tasks[t] == s.tasks[t]
    requires forall t | t in tasks && t !in s.tasks && Message(t, 1) !in sent ::
               !tasks[t].dispatched && tasks[t].state.Queued?
    requires forall t | t in tasks :: tasks[t].maxAttempts >= 1
    ensures Flow(tasks, s.stream + sent, s.cursor, s.workers)
  {
    var stream := s.stream + sent;
    forall e: nat | e < |stream| ensures stream[e] == if e < |s.stream| then s.stream[e] else sent[e - |s.stream|] {
    }
    forall e: nat | e < |s.stream| ensures Message(s.stream[e].task, 1) !in sent {
    }
    assert forall m | m in sent :: m == Message(m.task, 1);
    SentOneDelivery(s, stream, sent);
    forall t | t in tasks && tasks[t].dispatched && !tasks[t].state.Terminal()
      ensures HasLive(t, stream, s.cursor, s.workers)
    {
      if Message(t, 1) in sent {
        var i :| 0 <= i < |sent| && sent[i] == Message(t, 1);
        assert stream[|s.stream| + i].task == t && Live(s.cursor, s.workers, |s.stream| + i);
      } else {
        var e: nat :| e < |s.stream| && s.stream[e].task == t && Live(s.cursor, s.workers, e);
        assert stream[e].task == t;
      }
    }
  }

  lemma SentOneDelivery(s: State, stream: seq<Message>, sent: seq<Message>)
    requires FlowOf(s) && stream == s.stream + sent
    requires forall i, j | 0 <= i < j < |sent| :: sent[i].task != sent[j].task
    requires forall e: nat | e < |s.stream| :: Message(s.stream[e].task, 1) !in sent
    requires forall m | m in sent :: m == Message(m.task, 1)
    ensures OneDelivery(stream, s.cursor, s.workers)
  {
    forall e: nat | |s.stream| <= e < |stream| ensures stream[e] in sent {
      assert stream[e] == sent[e - |s.stream|];
    }
    forall e: nat, f: nat | e < f < |stream| && stream[e].task == stream[f].task ensures f < |s.stream| {
    }
  }

  lemma DispatchFlow(s: State, batch: seq<TaskId>)
    requires FlowOf(s) && Possible(s, Dispatch(batch))
    ensures FlowOf(Moved(s, Dispatch(batch)))
  {
    var sent := FirstMessages(batch);
    forall t ensures Message(t, 1) in sent <==> t in batch {
      if t in batch {
        var i :| 0 <= i < |batch| && batch[i] == t;
        assert sent[i] == Message(t, 1);
      }
    }
    SentFlow(s, MarkRows(s.tasks, batch), sent);
  }

  lemma SubmitFlow(s: State, scan: ScanId, plan: seq<Planned>)
    requires FlowOf(s) && Possible(s, Submit(scan, plan)) && forall p | p in plan :: p.id !in s.tasks
    ensures FlowOf(Moved(s, Submit(scan, plan)))
  {
    var tasks := AddRows(s.tasks, plan);
    AddRowsAt(s.tasks, plan);
    RootMessagesAre(plan);
    forall t | t in tasks && t !in s.tasks
      ensures tasks[t].maxAttempts >= 1 && tasks[t].state.Queued?
      ensures Message(t, 1) in RootMessages(plan) || !tasks[t].dispatched
    {
      var p :| p in plan && p.id == t;
      assert tasks[p.id] == PlannedRow(p);
    }
    SentFlow(s, tasks, RootMessages(plan));
  }
}
