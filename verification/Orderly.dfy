/** A regime of sends, stops and reclaims that can be checked action by action, under
    which a task has at most one live delivery in every state of a run. */
module Orderly {
  import opened Prelude
  import opened Graph
  import opened Planner
  import opened Lifecycle
  import opened Runs
  import opened Retries

  ghost predicate Unsent(s: State, t: TaskId) {
    forall e :: !IsFor(s, e, t)
  }

  /** As far as task t goes, the action is orderly: the task is first sent only once, no
      handler stops between its redelivery and its ACK, a reclaimer claims an entry only
      when no handler is at it and no other reclaimer holds it, and it gives up only
      before re-sending, or when the entry is not pending any more. */
  ghost predicate OrderlyStep(s: State, a: Action, t: TaskId)
    requires Enabled(s, a)
  {
    match a
    case Send(scan) => Current(s, scan).id == t ==> Unsent(s, t)
    case SendReady => s.dispatcher.todo[0] == t ==> Unsent(s, t)
    case Stop(e) => IsFor(s, e, t) ==> !s.workers[e].RetrySent?
    case Grab(c, e) => IsFor(s, e, t) ==> e !in s.workers && !Grabbed(s, e)
    case Drop(c) => IsFor(s, s.claims[c].entry, t) && s.claims[c].sent ==> s.claims[c].entry !in s.pel
    case _ => true
  }

  ghost predicate OrderlyAt(states: seq<State>, acts: seq<Action>, i: nat, t: TaskId) {
    i < |acts| && i < |states| && Enabled(states[i], acts[i]) && OrderlyStep(states[i], acts[i], t)
  }

  ghost predicate OrderlyRun(states: seq<State>, acts: seq<Action>, n: nat, t: TaskId) {
    IsRun(states, acts) && n <= |acts| && forall i: nat | i < n :: OrderlyAt(states, acts, i, t)
  }

  // ------------------------------------------------------ the invariant

  /** Undelivered, or un-ACKed, in no reclaimer's hands and not yet sent again. */
  ghost predicate Open(s: State, e: nat) {
    || e >= s.cursor
    || (e in s.pel && !Grabbed(s, e) && !(e in s.workers && s.workers[e].RetrySent?))
  }

  /** The open entries and unsent claims of t are one at most. */
  ghost predicate OneOpen(s: State, t: TaskId) {
    && (forall e, f | IsFor(s, e, t) && Open(s, e) && IsFor(s, f, t) && Open(s, f) :: e == f)
    && (forall c, d | LiveClaim(s, c, t) && LiveClaim(s, d, t) :: c == d)
    && (forall e, c | IsFor(s, e, t) && Open(s, e) :: !LiveClaim(s, c, t))
  }

  /** What a handler works on is pending and in no reclaimer's hands. */
  ghost predicate Held(s: State, t: TaskId) {
    forall e | IsFor(s, e, t) && e in s.workers :: e in s.pel && !Grabbed(s, e)
  }

  ghost predicate InOrder(s: State, t: TaskId) {
    OneOpen(s, t) && Held(s, t)
  }

  lemma OneOpenIsSingle(s: State, t: TaskId)
    requires InOrder(s, t)
    ensures AtMostOneLive(s, t)
  {
    forall e: nat | IsFor(s, e, t) && LiveEntry(s, e) ensures Open(s, e) {
    }
  }

  ghost predicate QueueOf(s: State) {
    QueueOk(|s.stream|, s.cursor, s.pel, s.workers, s.claims)
  }

  /** Nothing opens: open entries were open, live claims were live, handlers stay. */
  ghost predicate Narrows(s: State, s': State, t: TaskId) {
    && s'.stream == s.stream
    && (forall e | IsFor(s, e, t) && Open(s', e) :: Open(s, e))
    && (forall c | LiveClaim(s', c, t) :: LiveClaim(s, c, t))
    && (forall e | IsFor(s, e, t) && e in s'.workers :: e in s'.pel && !Grabbed(s', e))
  }

  lemma NarrowKeeps(s: State, s': State, t: TaskId)
    requires InOrder(s, t) && Narrows(s, s', t)
    ensures InOrder(s', t)
  {
    forall e: nat ensures IsFor(s', e, t) <==> IsFor(s, e, t) {
    }
  }

  /** One entry more, and nothing else for t is open or claimed. */
  lemma SendKeeps(s: State, s': State, m: Message, t: TaskId)
    requires QueueOf(s) && Held(s, t) && s'.stream == s.stream + [m] && s'.cursor == s.cursor && s'.pel == s.pel
    requires forall e | IsFor(s, e, t) && m.task == t :: !Open(s', e)
    requires m.task == t ==> forall c :: !LiveClaim(s', c, t)
    requires OneOpen(s, t) && (forall e: nat | e < |s.stream| && Open(s', e) :: Open(s, e))
    requires forall c | LiveClaim(s', c, t) :: LiveClaim(s, c, t)
    requires forall e: nat :: Grabbed(s', e) == Grabbed(s, e)
    requires s'.workers.Keys == s.workers.Keys
    ensures InOrder(s', t)
  {
    forall e: nat | e < |s.stream| ensures IsFor(s', e, t) <==> IsFor(s, e, t) {
    }
    assert IsFor(s', |s.stream|, t) <==> m.task == t;
  }

  // --------------------------------------------------------- the steps

  lemma FirstSendKeeps(s: State, s': State, u: TaskId, t: TaskId)
    requires QueueOf(s) && InOrder(s, t) && (u == t ==> Unsent(s, t))
    requires s'.stream == s.stream + [Message(u, 1)] && s'.cursor == s.cursor && s'.pel == s.pel
    requires s'.workers == s.workers && s'.claims == s.claims
    ensures InOrder(s', t)
  {
    forall e: nat ensures Grabbed(s', e) == Grabbed(s, e) {
    }
    forall c: nat ensures LiveClaim(s', c, t) == LiveClaim(s, c, t) {
    }
    SendKeeps(s, s', Message(u, 1), t);
  }

  lemma SameQueueKeeps(s: State, s': State, t: TaskId)
    requires InOrder(s, t) && s'.stream == s.stream && s'.cursor == s.cursor && s'.pel == s.pel
    requires s'.workers == s.workers && s'.claims == s.claims
    ensures InOrder(s', t)
  {
    SameClaims(s, s');
    forall c: nat ensures LiveClaim(s', c, t) == LiveClaim(s, c, t) {
    }
    NarrowKeeps(s, s', t);
  }

  lemma SameClaims(s: State, s': State)
    requires s'.claims == s.claims
    ensures forall e: nat :: Grabbed(s', e) == Grabbed(s, e)
  {
  }

  lemma SubmitKeepsOrder(s: State, a: Action, t: TaskId)
    requires QueueOf(s) && InOrder(s, t) && Enabled(s, a) && SubmitAction(a) && OrderlyStep(s, a, t)
    ensures InOrder(ApplySubmit(s, a), t)
  {
    if a.Send? {
      FirstSendKeeps(s, ApplySubmit(s, a), Current(s, a.scan).id, t);
    } else {
      SameQueueKeeps(s, ApplySubmit(s, a), t);
    }
  }

  lemma DispatchKeepsOrder(s: State, a: Action, t: TaskId)
    requires QueueOf(s) && InOrder(s, t) && Enabled(s, a) && DispatchAction(a) && OrderlyStep(s, a, t)
    ensures InOrder(ApplyDispatch(s, a), t)
  {
    if a.SendReady? {
      FirstSendKeeps(s, ApplyDispatch(s, a), s.dispatcher.todo[0], t);
    } else {
      SameQueueKeeps(s, ApplyDispatch(s, a), t);
    }
  }

  lemma ClosingKeepsOrder(s: State, a: Action, t: TaskId)
    requires InOrder(s, t) && Enabled(s, a) && ClosingAction(a)
    ensures InOrder(ApplyClosing(s, a), t)
  {
    SameQueueKeeps(s, ApplyClosing(s, a), t);
  }

  lemma DeliverKeepsOrder(s: State, t: TaskId)
    requires QueueOf(s) && InOrder(s, t) && Enabled(s, Deliver)
    ensures InOrder(ApplyWorker(s, Deliver), t)
  {
    var s' := ApplyWorker(s, Deliver);
    SameClaims(s, s');
    assert !Grabbed(s, s.cursor);
    NarrowKeeps(s, s', t);
  }

  lemma AckKeepsOrder(s: State, e: nat, t: TaskId)
    requires InOrder(s, t) && Enabled(s, Ack(e))
    ensures InOrder(ApplyWorker(s, Ack(e)), t)
  {
    var s' := ApplyWorker(s, Ack(e));
    SameClaims(s, s');
    NarrowKeeps(s, s', t);
  }

  lemma StopKeepsOrder(s: State, e: nat, t: TaskId)
    requires InOrder(s, t) && Enabled(s, Stop(e)) && OrderlyStep(s, Stop(e), t)
    ensures InOrder(ApplyWorker(s, Stop(e)), t)
  {
    var s' := ApplyWorker(s, Stop(e));
    SameClaims(s, s');
    NarrowKeeps(s, s', t);
  }

  lemma ResendKeepsOrder(s: State, e: nat, t: TaskId)
    requires QueueOf(s) && InOrder(s, t) && Enabled(s, Resend(e))
    ensures InOrder(ApplyWorker(s, Resend(e)), t)
  {
    var s' := ApplyWorker(s, Resend(e));
    SameClaims(s, s');
    forall c: nat ensures LiveClaim(s', c, t) == LiveClaim(s, c, t) {
    }
    assert IsFor(s, e, t) ==> Open(s, e);
    SendKeeps(s, s', Message(s.stream[e].task, s.stream[e].attempt + 1), t);
  }

  /** The other steps move a handler that is at work to another point before the ACK. */
  lemma PhaseKeepsOrder(s: State, a: Action, t: TaskId)
    requires InOrder(s, t) && Enabled(s, a)
    requires a.TryClaim? || a.Record? || a.Conclude? || a.Retry? || a.Cascade?
    ensures InOrder(ApplyWorker(s, a), t)
  {
    PhaseSteps(s, a);
    PointsMove(s, ApplyWorker(s, a), t);
  }

  ghost predicate SameButPoints(s: State, s': State) {
    && s'.stream == s.stream && s'.cursor == s.cursor && s'.pel == s.pel && s'.claims == s.claims
    && s'.workers.Keys == s.workers.Keys
    && forall f | f in s.workers && s.workers[f].RetrySent? :: s'.workers[f].RetrySent?
  }

  lemma PhaseSteps(s: State, a: Action)
    requires Enabled(s, a) && (a.TryClaim? || a.Record? || a.Conclude? || a.Retry? || a.Cascade?)
    ensures SameButPoints(s, ApplyWorker(s, a))
  {
  }

  lemma PointsMove(s: State, s': State, t: TaskId)
    requires InOrder(s, t) && SameButPoints(s, s')
    ensures InOrder(s', t)
  {
    SameClaims(s, s');
    NarrowKeeps(s, s', t);
  }

  lemma WorkerKeepsOrder(s: State, a: Action, t: TaskId)
    requires QueueOf(s) && InOrder(s, t) && Enabled(s, a) && WorkerAction(a) && OrderlyStep(s, a, t)
    ensures InOrder(ApplyWorker(s, a), t)
  {
    match a
    case Deliver => DeliverKeepsOrder(s, t);
    case Ack(e) => AckKeepsOrder(s, e, t);
    case Stop(e) => StopKeepsOrder(s, e, t);
    case Resend(e) => ResendKeepsOrder(s, e, t);
    case _ => PhaseKeepsOrder(s, a, t);
  }

  lemma GrabbedMore(s: State, s': State, c: nat, e: nat)
    requires c !in s.claims && s'.claims == s.claims[c := Claim(e, false)]
    ensures forall f: nat :: Grabbed(s', f) <==> Grabbed(s, f) || f == e
  {
    forall f: nat ensures Grabbed(s', f) <==> Grabbed(s, f) || f == e {
      assert s'.claims[c].entry == e;
      if d :| d in s.claims && s.claims[d].entry == f {
        assert s'.claims[d].entry == f;
      }
    }
  }

  /** The entry changes from open to claimed. */
  lemma GrabKeepsOrder(s: State, c: nat, e: nat, t: TaskId)
    requires QueueOf(s) && InOrder(s, t) && Enabled(s, Grab(c, e)) && OrderlyStep(s, Grab(c, e), t)
    ensures InOrder(ApplyReclaim(s, Grab(c, e)), t)
  {
    var s' := ApplyReclaim(s, Grab(c, e));
    GrabbedMore(s, s', c, e);
    assert IsFor(s, e, t) ==> Open(s, e);
    forall d: nat | LiveClaim(s', d, t) ensures LiveClaim(s, d, t) || (d == c && IsFor(s, e, t)) {
    }
    forall f: nat ensures IsFor(s', f, t) <==> IsFor(s, f, t) {
    }
  }

  lemma RequeueKeepsOrder(s: State, c: nat, t: TaskId)
    requires QueueOf(s) && InOrder(s, t) && Enabled(s, Requeue(c))
    ensures InOrder(ApplyReclaim(s, Requeue(c)), t)
  {
    var s', m := ApplyReclaim(s, Requeue(c)), s.stream[s.claims[c].entry];
    forall f: nat ensures Grabbed(s', f) == Grabbed(s, f) {
      if d :| d in s.claims && s.claims[d].entry == f {
        assert s'.claims[d].entry == f;
      }
    }
    assert m.task == t ==> LiveClaim(s, c, t);
    forall d: nat | LiveClaim(s', d, t) ensures d != c && LiveClaim(s, d, t) {
    }
    SendKeeps(s, s', Message(m.task, m.attempt + 1), t);
  }

  /** A reclaimer lets go of an entry that is not pending, or has not been sent again. */
  lemma LetGoKeepsOrder(s: State, c: nat, s': State, t: TaskId)
    requires InOrder(s, t) && c in s.claims && s'.claims == s.claims - {c} && s'.stream == s.stream
    requires s'.cursor == s.cursor && s'.workers == s.workers && s'.pel <= s.pel
    requires s.pel - {s.claims[c].entry} <= s'.pel
    requires s.claims[c].entry in s'.pel && IsFor(s, s.claims[c].entry, t) ==> !s.claims[c].sent
    ensures InOrder(s', t)
  {
    var e := s.claims[c].entry;
    assert Grabbed(s, e);
    forall f: nat | Grabbed(s, f) && !Grabbed(s', f) ensures f == e {
      var d :| d in s.claims && s.claims[d].entry == f;
      assert d == c || d in s'.claims;
    }
    forall f: nat | Grabbed(s', f) ensures Grabbed(s, f) {
    }
    forall f: nat | IsFor(s, f, t) && Open(s', f) && !Open(s, f) ensures f == e && LiveClaim(s, c, t) {
    }
    forall d: nat | LiveClaim(s', d, t) ensures LiveClaim(s, d, t) && d != c {
    }
    forall f: nat ensures IsFor(s', f, t) <==> IsFor(s, f, t) {
    }
  }

  lemma ReclaimKeepsOrder(s: State, a: Action, t: TaskId)
    requires QueueOf(s) && InOrder(s, t) && Enabled(s, a) && ReclaimAction(a) && OrderlyStep(s, a, t)
    ensures InOrder(ApplyReclaim(s, a), t)
  {
    match a
    case Grab(c, e) => GrabKeepsOrder(s, c, e, t);
    case Requeue(c) => RequeueKeepsOrder(s, c, t);
    case Release(c) => LetGoKeepsOrder(s, c, ApplyReclaim(s, a), t);
    case Drop(c) => LetGoKeepsOrder(s, c, ApplyReclaim(s, a), t);
  }

  lemma StepKeepsOrder(s: State, a: Action, s': State, t: TaskId)
    requires QueueOf(s) && InOrder(s, t) && Next(s, a, s') && OrderlyStep(s, a, t)
    ensures InOrder(s', t)
  {
    if SubmitAction(a) {
      SubmitKeepsOrder(s, a, t);
    } else if DispatchAction(a) {
      DispatchKeepsOrder(s, a, t);
    } else if ClosingAction(a) {
      ClosingKeepsOrder(s, a, t);
    } else if ReclaimAction(a) {
      ReclaimKeepsOrder(s, a, t);
    } else {
      WorkerKeepsOrder(s, a, t);
    }
  }

  lemma OrderAt(states: seq<State>, acts: seq<Action>, n: nat, k: nat, t: TaskId)
    requires OrderlyRun(states, acts, n, t) && k < n && InOrder(states[k], t)
    ensures InOrder(states[k + 1], t)
  {
    BasicRun(states, acts, k);
    RunStep(states, acts, k);
    assert OrderlyAt(states, acts, k, t);
    StepKeepsOrder(states[k], acts[k], states[k + 1], t);
  }

  lemma {:induction false} OrderRun(states: seq<State>, acts: seq<Action>, n: nat, k: nat, t: TaskId)
    requires OrderlyRun(states, acts, n, t) && k <= n
    ensures InOrder(states[k], t)
  {
    if k > 0 {
      OrderRun(states, acts, n, k - 1, t);
      OrderAt(states, acts, n, k - 1, t);
    }
  }

  // ------------------------------------------------------------ theorems

  /** Orderly steps keep every task at one live delivery, over the whole run. */
  lemma OrderlySingle(states: seq<State>, acts: seq<Action>, n: nat, t: TaskId)
    requires OrderlyRun(states, acts, n, t)
    ensures SingleLive(states, n, t)
  {
    forall i | 0 <= i <= n && i < |states| ensures AtMostOneLive(states[i], t) {
      OrderRun(states, acts, n, i, t);
      OneOpenIsSingle(states[i], t);
    }
  }

  /** So with stops and reclaims a task records at most `max_attempts` outcomes, at most
      10, one handler runs it at a time, and its terminal state is final. */
  lemma OrderlyRetries(states: seq<State>, acts: seq<Action>, n: nat, t: TaskId)
    requires OrderlyRun(states, acts, n, t) && t in states[n].tasks
    ensures Outcomes(states, acts, n, t) <= states[n].tasks[t].maxAttempts <= 10
    ensures forall e, f | IsFor(states[n], e, t) && e in states[n].workers && Owning(states[n].workers[e]) &&
              IsFor(states[n], f, t) && f in states[n].workers && Owning(states[n].workers[f]) ::
              e == f && states[n].tasks[t].state.Running?
  {
    OrderlySingle(states, acts, n, t);
    OutcomesBounded(states, acts, n, t);
    forall e, f | IsFor(states[n], e, t) && e in states[n].workers && Owning(states[n].workers[e]) &&
      IsFor(states[n], f, t) && f in states[n].workers && Owning(states[n].workers[f])
      ensures e == f && states[n].tasks[t].state.Running?
    {
      OneRunner(states, acts, n, t, e, f);
    }
  }

  lemma OrderlyTerminalIsFinal(states: seq<State>, acts: seq<Action>, i: nat, n: nat, t: TaskId)
    requires OrderlyRun(states, acts, n, t) && i <= n
    requires t in states[i].tasks && states[i].tasks[t].state.Terminal()
    ensures t in states[n].tasks && states[n].tasks[t].state == states[i].tasks[t].state
    ensures states[n].tasks[t].result == states[i].tasks[t].result
  {
    OrderlySingle(states, acts, n, t);
    TerminalIsFinal(states, acts, i, n, t);
  }
}
