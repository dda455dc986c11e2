/** Runs in which a task has at most one live delivery, stopped and reclaimed ones
    included: its terminal state is final and its outcomes are bounded. */
module Retries {
  import opened Prelude
  import opened Graph
  import opened Planner
  import opened Lifecycle
  import opened Runs

  ghost predicate IsFor(s: State, e: nat, t: TaskId) {
    e < |s.stream| && s.stream[e].task == t
  }

  ghost predicate Grabbed(s: State, e: nat) {
    exists c :: c in s.claims && s.claims[c].entry == e
  }

  /** Not delivered yet; or handled by a worker that can still act on the row; or
      un-ACKed, with no handler and in no reclaimer's hands. */
  ghost predicate LiveEntry(s: State, e: nat) {
    || e >= s.cursor
    || (e in s.workers && s.workers[e].Live())
    || (e in s.pel && e !in s.workers && !Grabbed(s, e))
  }

  /** A reclaimer is about to re-send the task. */
  ghost predicate LiveClaim(s: State, c: nat, t: TaskId) {
    c in s.claims && !s.claims[c].sent && IsFor(s, s.claims[c].entry, t)
  }

  ghost predicate AtMostOneLive(s: State, t: TaskId) {
    && (forall e, f | IsFor(s, e, t) && LiveEntry(s, e) && IsFor(s, f, t) && LiveEntry(s, f) :: e == f)
    && (forall c, d | LiveClaim(s, c, t) && LiveClaim(s, d, t) :: c == d)
    && (forall e, c | IsFor(s, e, t) && LiveEntry(s, e) :: !LiveClaim(s, c, t))
  }

  // ------------------------------------------------------ the invariant

  ghost predicate IsLast(s: State, e: nat, t: TaskId) {
    IsFor(s, e, t) && forall f | f > e :: !IsFor(s, f, t)
  }

  /** The newest entry of an unfinished task is un-ACKed, not re-sent, and any
      handler of it is still at work. */
  ghost predicate Intact(s: State, e: nat) {
    || e >= s.cursor
    || (e in s.pel && (e in s.workers ==> s.workers[e].Live()) &&
        forall c | c in s.claims && s.claims[c].entry == e :: !s.claims[c].sent)
  }

  /** The attempt number under which the task will next reach an outcome. */
  ghost function NextAttempt(s: State, e: nat): int
    requires e < |s.stream|
  {
    if e >= s.cursor || (e in s.workers && !s.workers[e].RetryPending?)
    then s.stream[e].attempt else s.stream[e].attempt + 1
  }

  /** `n` outcomes have been recorded for the unfinished row so far. */
  ghost predicate Unfinished(s: State, t: TaskId, n: nat)
    requires t in s.tasks
  {
    && ((forall e :: !IsFor(s, e, t)) ==> n == 0)
    && n < s.tasks[t].maxAttempts
    && forall e | IsLast(s, e, t) :: Intact(s, e) && n < NextAttempt(s, e)
  }

  ghost predicate Bounded(s: State, t: TaskId, n: nat) {
    && (t !in s.tasks ==> n == 0)
    && (t in s.tasks ==>
          && n <= s.tasks[t].maxAttempts
          && (!s.tasks[t].state.Terminal() ==> Unfinished(s, t, n))
          && forall e | IsFor(s, e, t) && e in s.workers && Owning(s.workers[e]) :: s.tasks[t].state.Running?)
  }

  /** Does the action record an outcome (retry or terminal) of task t? */
  ghost predicate Outcome(s: State, a: Action, t: TaskId) {
    (a.Retry? || a.Conclude?) && IsFor(s, a.e, t)
  }

  ghost function Tick(s: State, a: Action, t: TaskId): nat {
    if Outcome(s, a, t) then 1 else 0
  }

  lemma {:induction false} LastExists(s: State, e: nat, t: TaskId) returns (last: nat)
    requires IsFor(s, e, t)
    ensures IsLast(s, last, t) && last >= e
    decreases |s.stream| - e
  {
    if f :| f > e && IsFor(s, f, t) {
      last := LastExists(s, f, t);
    } else {
      last := e;
    }
  }

  /** Under single liveness the live delivery of an unfinished task is its newest. */
  lemma LiveIsLast(s: State, t: TaskId, n: nat, e: nat)
    requires t in s.tasks && !s.tasks[t].state.Terminal() && Bounded(s, t, n) && AtMostOneLive(s, t)
    requires IsFor(s, e, t) && (LiveEntry(s, e) || exists c :: LiveClaim(s, c, t) && s.claims[c].entry == e)
    ensures IsLast(s, e, t)
  {
    var last := LastExists(s, e, t);
    if last != e && !LiveEntry(s, last) {
      assert Intact(s, last) && Grabbed(s, last);
      var c :| c in s.claims && s.claims[c].entry == last;
      assert LiveClaim(s, c, t);
    }
  }

  /** A second message for an unfinished task would be a second live delivery. */
  lemma FirstMessage(s: State, t: TaskId, n: nat, s': State)
    requires t in s.tasks && !s.tasks[t].state.Terminal() && Bounded(s, t, n)
    requires s.cursor <= |s.stream| && s'.stream == s.stream + [Message(t, 1)]
    requires s'.cursor == s.cursor && s'.pel == s.pel && s'.workers == s.workers && s'.claims == s.claims
    requires AtMostOneLive(s', t)
    ensures n == 0
  {
    if e :| IsFor(s, e, t) {
      var last := LastExists(s, e, t);
      assert Intact(s, last) && IsFor(s', last, t);
      assert LiveEntry(s, last) ==> LiveEntry(s', last);
      forall c | last < s.cursor && c in s.claims && s.claims[c].entry == last ensures LiveClaim(s', c, t) {
      }
      assert IsFor(s', |s.stream|, t) && LiveEntry(s', |s.stream|);
    }
  }

  /** A step that does not touch the deliveries of t, nor its row unless to abort it. */
  ghost predicate Untouched(s: State, s': State, t: TaskId) {
    && t in s.tasks && t in s'.tasks
    && s'.tasks[t].maxAttempts == s.tasks[t].maxAttempts
    && (s'.tasks[t].state == s.tasks[t].state || (s.tasks[t].state.Queued? && s'.tasks[t].state.Aborted?))
    && s.stream <= s'.stream
    && forall e: nat :: IsFor(s', e, t) ==>
         && e < |s.stream|
         && (e >= s'.cursor <==> e >= s.cursor) && (e in s'.pel <==> e in s.pel)
         && (e in s'.workers <==> e in s.workers) && (e in s.workers ==> s'.workers[e] == s.workers[e])
         && forall c | c in s'.claims && s'.claims[c].entry == e && s'.claims[c].sent ::
              c in s.claims && s.claims[c].entry == e && s.claims[c].sent
  }

  lemma UntouchedBounded(s: State, s': State, t: TaskId, n: nat)
    requires Bounded(s, t, n) && Untouched(s, s', t)
    ensures Bounded(s', t, n)
  {
    forall e ensures IsFor(s', e, t) <==> IsFor(s, e, t) {
    }
    forall e | IsLast(s', e, t) ensures IsLast(s, e, t) {
    }
  }

  lemma SentAgain(s: State, t: TaskId, n: nat, s': State)
    requires QueueOk(|s.stream|, s.cursor, s.pel, s.workers, s.claims)
    requires t in s.tasks && s'.tasks == s.tasks && Bounded(s, t, n)
    requires s'.stream == s.stream + [Message(t, 1)]
    requires s'.cursor == s.cursor && s'.pel == s.pel && s'.workers == s.workers && s'.claims == s.claims
    requires AtMostOneLive(s', t)
    ensures Bounded(s', t, n)
  {
    if !s.tasks[t].state.Terminal() {
      FirstMessage(s, t, n, s');
    }
    assert IsFor(s', |s.stream|, t);
    forall e: nat | e < |s.stream| ensures IsFor(s', e, t) <==> IsFor(s, e, t) {
    }
  }

  lemma BoundedSubmit(s: State, a: Action, t: TaskId, n: nat)
    requires QueueOk(|s.stream|, s.cursor, s.pel, s.workers, s.claims) && MessagesOk(s.stream, s.tasks.Keys)
    requires Enabled(s, a) && SubmitAction(a) && Bounded(s, t, n) && AtMostOneLive(ApplySubmit(s, a), t)
    requires a.Insert? ==> Current(s, a.scan).maxAttempts >= 1
    requires a.Send? ==> Current(s, a.scan).id in s.tasks
    ensures Bounded(ApplySubmit(s, a), t, n)
  {
    var s' := ApplySubmit(s, a);
    if t in s.tasks {
      if a.Send? && Current(s, a.scan).id == t {
        SentAgain(s, t, n, s');
      } else {
        assert Untouched(s, s', t);
        UntouchedBounded(s, s', t, n);
      }
    }
  }

  lemma BoundedDispatch(s: State, a: Action, t: TaskId, n: nat)
    requires QueueOk(|s.stream|, s.cursor, s.pel, s.workers, s.claims) && DispatcherOk(s.dispatcher, s.tasks.Keys)
    requires Enabled(s, a) && DispatchAction(a) && Bounded(s, t, n) && AtMostOneLive(ApplyDispatch(s, a), t)
    ensures Bounded(ApplyDispatch(s, a), t, n)
  {
    var s' := ApplyDispatch(s, a);
    if t in s.tasks {
      if a.SendReady? && s.dispatcher.todo[0] == t {
        SentAgain(s, t, n, s');
      } else {
        assert Untouched(s, s', t);
        UntouchedBounded(s, s', t, n);
      }
    }
  }

  lemma BoundedReclaim(s: State, a: Action, t: TaskId, n: nat)
    requires QueueOk(|s.stream|, s.cursor, s.pel, s.workers, s.claims) && MessagesOk(s.stream, s.tasks.Keys)
    requires Enabled(s, a) && ReclaimAction(a) && Bounded(s, t, n) && AtMostOneLive(s, t)
    ensures Bounded(ApplyReclaim(s, a), t, n)
  {
    var s' := ApplyReclaim(s, a);
    if t in s.tasks {
      if a.Requeue? && IsFor(s, s.claims[a.c].entry, t) {
        RequeueBounded(s, a.c, t, n);
      } else if a.Release? && IsFor(s, s.claims[a.c].entry, t) {
        ReleaseBounded(s, a.c, t, n);
      } else {
        assert Untouched(s, s', t);
        UntouchedBounded(s, s', t, n);
      }
    }
  }

  lemma RequeueBounded(s: State, c: nat, t: TaskId, n: nat)
    requires QueueOk(|s.stream|, s.cursor, s.pel, s.workers, s.claims) && t in s.tasks
    requires Enabled(s, Requeue(c)) && Bounded(s, t, n) && AtMostOneLive(s, t) && IsFor(s, s.claims[c].entry, t)
    ensures Bounded(ApplyReclaim(s, Requeue(c)), t, n)
  {
    var s', e := ApplyReclaim(s, Requeue(c)), s.claims[c].entry;
    assert LiveClaim(s, c, t);
    if !s.tasks[t].state.Terminal() {
      LiveIsLast(s, t, n, e);
      assert Intact(s, e) && e !in s.workers;
    }
    assert IsFor(s', |s.stream|, t);
    forall f: nat | f < |s.stream| ensures IsFor(s', f, t) <==> IsFor(s, f, t) {
    }
  }

  lemma ReleaseBounded(s: State, c: nat, t: TaskId, n: nat)
    requires QueueOk(|s.stream|, s.cursor, s.pel, s.workers, s.claims) && t in s.tasks
    requires Enabled(s, Release(c)) && Bounded(s, t, n) && IsFor(s, s.claims[c].entry, t)
    ensures Bounded(ApplyReclaim(s, Release(c)), t, n)
  {
    var s', e := ApplyReclaim(s, Release(c)), s.claims[c].entry;
    forall f: nat ensures IsFor(s', f, t) <==> IsFor(s, f, t) {
    }
    forall f: nat | IsLast(s', f, t) ensures IsLast(s, f, t) {
    }
    assert !s.tasks[t].state.Terminal() && IsLast(s, e, t) ==> Intact(s, e);
  }

  lemma BoundedWorker(s: State, a: Action, t: TaskId, n: nat)
    requires QueueOk(|s.stream|, s.cursor, s.pel, s.workers, s.claims)
    requires Enabled(s, a) && WorkerAction(a) && Bounded(s, t, n) && AtMostOneLive(s, t)
    requires !a.Deliver? && IsFor(s, a.e, t) ==> t in s.tasks
    ensures Bounded(ApplyWorker(s, a), t, n + Tick(s, a, t))
  {
    var s' := ApplyWorker(s, a);
    if t in s.tasks {
      if a.Deliver? {
        DeliverBounded(s, t, n);
      } else if IsFor(s, a.e, t) {
        if a.Retry? {
          RetryBounded(s, a.e, t, n);
        } else if a.Conclude? {
          ConcludeBounded(s, a.e, a.verdict, t, n);
        } else if a.Resend? {
          ResendBounded(s, a.e, t, n);
        } else if a.Ack? {
          AckBounded(s, a.e, t, n);
        } else if a.Stop? {
          StopBounded(s, a.e, t, n);
        } else {
          OwnStepBounded(s, a, t, n);
        }
      } else {
        OtherStepBounded(s, a, t, n);
      }
    }
  }

  lemma OtherStepBounded(s: State, a: Action, t: TaskId, n: nat)
    requires t in s.tasks && Enabled(s, a) && WorkerAction(a) && Bounded(s, t, n)
    requires !a.Deliver? && !IsFor(s, a.e, t)
    ensures Bounded(ApplyWorker(s, a), t, n)
  {
    var s' := ApplyWorker(s, a);
    assert Untouched(s, s', t);
    UntouchedBounded(s, s', t, n);
  }

  lemma DeliverBounded(s: State, t: TaskId, n: nat)
    requires QueueOk(|s.stream|, s.cursor, s.pel, s.workers, s.claims) && t in s.tasks && Enabled(s, Deliver)
    requires Bounded(s, t, n)
    ensures Bounded(ApplyWorker(s, Deliver), t, n)
  {
    var s' := ApplyWorker(s, Deliver);
    forall e: nat ensures IsFor(s', e, t) <==> IsFor(s, e, t) {
    }
    forall e: nat | IsLast(s', e, t) ensures IsLast(s, e, t) {
    }
  }

  lemma RetryBounded(s: State, e: nat, t: TaskId, n: nat)
    requires t in s.tasks && IsFor(s, e, t) && Enabled(s, Retry(e)) && Bounded(s, t, n) && AtMostOneLive(s, t)
    requires e < s.cursor
    ensures Bounded(ApplyWorker(s, Retry(e)), t, n + 1)
  {
    var s' := ApplyWorker(s, Retry(e));
    LiveIsLast(s, t, n, e);
    assert Intact(s, e);
    forall f: nat ensures IsFor(s', f, t) <==> IsFor(s, f, t) {
    }
    forall f: nat | IsLast(s', f, t) ensures f == e {
    }
    forall f: nat | IsFor(s, f, t) && f in s.workers && Owning(s.workers[f]) ensures f == e {
      assert LiveEntry(s, f) && LiveEntry(s, e);
    }
  }

  lemma ConcludeBounded(s: State, e: nat, v: Verdict, t: TaskId, n: nat)
    requires t in s.tasks && IsFor(s, e, t) && Enabled(s, Conclude(e, v)) && Bounded(s, t, n) && AtMostOneLive(s, t)
    ensures Bounded(ApplyWorker(s, Conclude(e, v)), t, n + 1)
  {
    var s' := ApplyWorker(s, Conclude(e, v));
    forall f: nat | IsFor(s, f, t) && f in s.workers && Owning(s.workers[f]) ensures f == e {
      assert LiveEntry(s, f) && LiveEntry(s, e);
    }
    forall f: nat ensures IsFor(s', f, t) <==> IsFor(s, f, t) {
    }
  }

  lemma ResendBounded(s: State, e: nat, t: TaskId, n: nat)
    requires QueueOk(|s.stream|, s.cursor, s.pel, s.workers, s.claims)
    requires t in s.tasks && IsFor(s, e, t) && Enabled(s, Resend(e)) && Bounded(s, t, n) && AtMostOneLive(s, t)
    ensures Bounded(ApplyWorker(s, Resend(e)), t, n)
  {
    var s' := ApplyWorker(s, Resend(e));
    if !s.tasks[t].state.Terminal() {
      LiveIsLast(s, t, n, e);
    }
    assert IsFor(s', |s.stream|, t);
    forall f: nat | f < |s.stream| ensures IsFor(s', f, t) <==> IsFor(s, f, t) {
    }
  }

  lemma OwnStepBounded(s: State, a: Action, t: TaskId, n: nat)
    requires QueueOk(|s.stream|, s.cursor, s.pel, s.workers, s.claims) && t in s.tasks
    requires a.TryClaim? || a.Record? || a.Cascade?
    requires IsFor(s, a.e, t) && Enabled(s, a) && Bounded(s, t, n)
    ensures Bounded(ApplyWorker(s, a), t, n)
  {
    if a.TryClaim? {
      ClaimBounded(s, a.e, t, n);
    } else if a.Record? {
      RecordBounded(s, a.e, a.types, t, n);
    } else {
      CascadeBounded(s, a.e, t, n);
    }
  }

  lemma ClaimBounded(s: State, e: nat, t: TaskId, n: nat)
    requires t in s.tasks && IsFor(s, e, t) && Enabled(s, TryClaim(e)) && Bounded(s, t, n)
    ensures Bounded(ApplyWorker(s, TryClaim(e)), t, n)
  {
    var s' := ApplyWorker(s, TryClaim(e));
    SameEntries(s, s', t);
    if !s.tasks[t].state.Terminal() {
      ClaimUnfinished(s, e, t, n);
    }
  }

  lemma ClaimUnfinished(s: State, e: nat, t: TaskId, n: nat)
    requires t in s.tasks && IsFor(s, e, t) && Enabled(s, TryClaim(e)) && Unfinished(s, t, n)
    requires !s.tasks[t].state.Terminal()
    ensures Unfinished(ApplyWorker(s, TryClaim(e)), t, n)
  {
    SameEntries(s, ApplyWorker(s, TryClaim(e)), t);
  }

  lemma RecordBounded(s: State, e: nat, types: set<string>, t: TaskId, n: nat)
    requires t in s.tasks && IsFor(s, e, t) && Enabled(s, Record(e, types)) && Bounded(s, t, n)
    ensures Bounded(ApplyWorker(s, Record(e, types)), t, n)
  {
    SameEntries(s, ApplyWorker(s, Record(e, types)), t);
  }

  lemma CascadeBounded(s: State, e: nat, t: TaskId, n: nat)
    requires t in s.tasks && IsFor(s, e, t) && Enabled(s, Cascade(e)) && Bounded(s, t, n)
    ensures Bounded(ApplyWorker(s, Cascade(e)), t, n)
  {
    SameEntries(s, ApplyWorker(s, Cascade(e)), t);
  }

  lemma SameEntries(s: State, s': State, t: TaskId)
    requires s'.stream == s.stream
    ensures forall f: nat :: IsFor(s', f, t) <==> IsFor(s, f, t)
    ensures forall f: nat :: IsLast(s', f, t) <==> IsLast(s, f, t)
  {
  }

  lemma StopBounded(s: State, e: nat, t: TaskId, n: nat)
    requires t in s.tasks && IsFor(s, e, t) && Enabled(s, Stop(e)) && Bounded(s, t, n)
    ensures Bounded(ApplyWorker(s, Stop(e)), t, n)
  {
    var s' := ApplyWorker(s, Stop(e));
    forall f: nat ensures IsFor(s', f, t) <==> IsFor(s, f, t) {
    }
    forall f: nat | IsLast(s', f, t) ensures IsLast(s, f, t) {
    }
  }

  lemma AckBounded(s: State, e: nat, t: TaskId, n: nat)
    requires t in s.tasks && IsFor(s, e, t) && Enabled(s, Ack(e)) && Bounded(s, t, n) && e < s.cursor
    ensures Bounded(ApplyWorker(s, Ack(e)), t, n)
  {
    var s' := ApplyWorker(s, Ack(e));
    forall f: nat ensures IsFor(s', f, t) <==> IsFor(s, f, t) {
    }
    forall f: nat | IsLast(s', f, t) ensures IsLast(s, f, t) {
    }
  }

  ghost predicate SubmitFacts(s: State, a: Action)
    requires Enabled(s, a)
  {
    && (a.Insert? ==> Current(s, a.scan).maxAttempts >= 1)
    && (a.Send? ==> Current(s, a.scan).id in s.tasks)
  }

  lemma SubmitFactsHold(s: State, a: Action)
    requires PlansOk(s.plans) && SubmissionsOk(s.submissions, s.plans, s.scans, s.tasks.Keys) && Enabled(s, a)
    ensures SubmitFacts(s, a)
  {
    if a.Insert? {
      assert Current(s, a.scan) in s.plans[a.scan] && PlanShape(a.scan, s.plans[a.scan]);
    } else if a.Send? {
      assert SubmissionOk(s.submissions[a.scan], s.plans[a.scan], s.tasks.Keys);
    }
  }

  lemma BoundedStep(s: State, a: Action, s': State, t: TaskId, n: nat)
    requires QueueOk(|s.stream|, s.cursor, s.pel, s.workers, s.claims) && MessagesOk(s.stream, s.tasks.Keys)
    requires DispatcherOk(s.dispatcher, s.tasks.Keys) && Next(s, a, s') && SubmitFacts(s, a)
    requires Bounded(s, t, n) && AtMostOneLive(s, t) && AtMostOneLive(s', t)
    ensures Bounded(s', t, n + Tick(s, a, t))
  {
    if SubmitAction(a) {
      assert s' == ApplySubmit(s, a);
      BoundedSubmit(s, a, t, n);
    } else if DispatchAction(a) {
      assert s' == ApplyDispatch(s, a);
      BoundedDispatch(s, a, t, n);
    } else if ClosingAction(a) {
      assert s' == ApplyClosing(s, a);
      ClosingBounded(s, a, t, n);
    } else if ReclaimAction(a) {
      assert s' == ApplyReclaim(s, a);
      BoundedReclaim(s, a, t, n);
    } else {
      assert s' == ApplyWorker(s, a);
      BoundedWorker(s, a, t, n);
    }
  }

  lemma ClosingBounded(s: State, a: Action, t: TaskId, n: nat)
    requires Enabled(s, a) && ClosingAction(a) && Bounded(s, t, n)
    ensures Bounded(ApplyClosing(s, a), t, n)
  {
    if t in s.tasks {
      UntouchedBounded(s, ApplyClosing(s, a), t, n);
    }
  }

  // ------------------------------------------------------------ theorems

  /** The outcomes of t recorded by the first n steps of a run. */
  ghost function Outcomes(states: seq<State>, acts: seq<Action>, n: nat, t: TaskId): nat
    requires n <= |acts| <= |states|
  {
    if n == 0 then 0 else Outcomes(states, acts, n - 1, t) + Tick(states[n - 1], acts[n - 1], t)
  }

  ghost predicate SingleLive(states: seq<State>, n: nat, t: TaskId) {
    forall i | 0 <= i <= n && i < |states| :: AtMostOneLive(states[i], t)
  }

  lemma {:induction false} BoundedRun(states: seq<State>, acts: seq<Action>, n: nat, t: TaskId)
    requires IsRun(states, acts) && n <= |acts| && SingleLive(states, n, t)
    ensures Bounded(states[n], t, Outcomes(states, acts, n, t))
  {
    if n > 0 {
      BoundedRun(states, acts, n - 1, t);
      BasicRun(states, acts, n - 1);
      RunStep(states, acts, n - 1);
      SubmitFactsHold(states[n - 1], acts[n - 1]);
      BoundedStep(states[n - 1], acts[n - 1], states[n], t, Outcomes(states, acts, n - 1, t));
    }
  }

  /** Bounded retries: crashed and reclaimed deliveries included, a task never
      records more outcomes than its `max_attempts`, which is at most 10. */
  lemma OutcomesBounded(states: seq<State>, acts: seq<Action>, n: nat, t: TaskId)
    requires IsRun(states, acts) && n <= |acts| && SingleLive(states, n, t) && t in states[n].tasks
    ensures Outcomes(states, acts, n, t) <= states[n].tasks[t].maxAttempts <= 10
  {
    BoundedRun(states, acts, n, t);
    BasicRun(states, acts, n);
    RowWithinLimits(states[n], t);
  }

  lemma RowWithinLimits(s: State, t: TaskId)
    requires RowsPlanned(s.tasks, s.plans) && PlansOk(s.plans) && t in s.tasks
    ensures 1 <= s.tasks[t].maxAttempts <= 10
  {
    var p :| p in s.plans[t.scan] && p.id == t && Agrees(s.tasks[t], p);
    assert PlanShape(t.scan, s.plans[t.scan]);
  }

  lemma TerminalKept(s: State, a: Action, t: TaskId, n: nat)
    requires Enabled(s, a) && Bounded(s, t, n) && t in s.tasks && s.tasks[t].state.Terminal()
    ensures t in Apply(s, a).tasks
    ensures Apply(s, a).tasks[t].state == s.tasks[t].state && Apply(s, a).tasks[t].result == s.tasks[t].result
  {
    if WorkerAction(a) {
      assert Apply(s, a) == ApplyWorker(s, a);
    } else if SubmitAction(a) {
      assert Apply(s, a) == ApplySubmit(s, a);
    } else if DispatchAction(a) {
      assert Apply(s, a) == ApplyDispatch(s, a);
    }
  }

  /** `succeeded`, `failed`, `dead` and `aborted` are absorbing, even though the
      updates that could leave them do not test the old state. */
  lemma {:induction false} TerminalIsFinal(states: seq<State>, acts: seq<Action>, i: nat, n: nat, t: TaskId)
    requires IsRun(states, acts) && i <= n <= |acts| && SingleLive(states, n, t)
    requires t in states[i].tasks && states[i].tasks[t].state.Terminal()
    ensures t in states[n].tasks && states[n].tasks[t].state == states[i].tasks[t].state
    ensures states[n].tasks[t].result == states[i].tasks[t].result
    decreases n
  {
    if i < n {
      TerminalIsFinal(states, acts, i, n - 1, t);
      BoundedRun(states, acts, n - 1, t);
      RunStep(states, acts, n - 1);
      TerminalKept(states[n - 1], acts[n - 1], t, Outcomes(states, acts, n - 1, t));
    }
  }

  /** At most one handler runs the task at a time, and then the row says so. */
  lemma OneRunner(states: seq<State>, acts: seq<Action>, n: nat, t: TaskId, e: nat, f: nat)
    requires IsRun(states, acts) && n <= |acts| && SingleLive(states, n, t)
    requires IsFor(states[n], e, t) && e in states[n].workers && Owning(states[n].workers[e])
    requires IsFor(states[n], f, t) && f in states[n].workers && Owning(states[n].workers[f])
    ensures e == f && t in states[n].tasks && states[n].tasks[t].state.Running?
  {
    assert LiveEntry(states[n], e) && LiveEntry(states[n], f);
    BoundedRun(states, acts, n, t);
    BasicRun(states, acts, n);
  }

  // Reclaiming a stopped delivery stays within single liveness: the stop itself,
  // the grab, the re-send and the ACK of the old entry never make a second live one.

  lemma StopKeepsSingle(s: State, e: nat, t: TaskId)
    requires AtMostOneLive(s, t) && Enabled(s, Stop(e)) && s.workers[e].Live() && e in s.pel && !Grabbed(s, e)
    ensures AtMostOneLive(ApplyWorker(s, Stop(e)), t)
  {
    var s' := ApplyWorker(s, Stop(e));
    forall f: nat | LiveEntry(s', f) ensures LiveEntry(s, f) {
      assert Grabbed(s', f) == Grabbed(s, f);
    }
    forall c: nat | LiveClaim(s', c, t) ensures LiveClaim(s, c, t) {
    }
  }

  lemma GrabKeepsSingle(s: State, c: nat, e: nat, t: TaskId)
    requires QueueOk(|s.stream|, s.cursor, s.pel, s.workers, s.claims)
    requires AtMostOneLive(s, t) && Enabled(s, Grab(c, e)) && e !in s.workers && !Grabbed(s, e)
    ensures AtMostOneLive(ApplyReclaim(s, Grab(c, e)), t)
  {
    var s' := ApplyReclaim(s, Grab(c, e));
    assert LiveEntry(s, e) && s'.claims[c].entry == e;
    forall f: nat | LiveEntry(s', f) ensures LiveEntry(s, f) && f != e {
      if d :| d in s.claims && s.claims[d].entry == f {
        assert s'.claims[d].entry == f;
      }
    }
    forall d: nat | LiveClaim(s', d, t) ensures d == c || LiveClaim(s, d, t) {
    }
  }

  lemma RequeueKeepsSingle(s: State, c: nat, t: TaskId)
    requires QueueOk(|s.stream|, s.cursor, s.pel, s.workers, s.claims)
    requires AtMostOneLive(s, t) && Enabled(s, Requeue(c)) && s.claims[c].entry !in s.workers
    ensures AtMostOneLive(ApplyReclaim(s, Requeue(c)), t)
  {
    var s' := ApplyReclaim(s, Requeue(c));
    forall f: nat ensures Grabbed(s', f) == Grabbed(s, f) {
      if d :| d in s.claims && s.claims[d].entry == f {
        assert s'.claims[d].entry == f;
      }
    }
    forall f: nat | IsFor(s', f, t) && LiveEntry(s', f)
      ensures if f < |s.stream| then IsFor(s, f, t) && LiveEntry(s, f) else LiveClaim(s, c, t)
    {
    }
    forall d: nat | LiveClaim(s', d, t) ensures d != c && LiveClaim(s, d, t) {
    }
  }

  lemma ReleaseKeepsSingle(s: State, c: nat, t: TaskId)
    requires AtMostOneLive(s, t) && Enabled(s, Release(c))
    ensures AtMostOneLive(ApplyReclaim(s, Release(c)), t)
  {
    var s' := ApplyReclaim(s, Release(c));
    forall f: nat | LiveEntry(s', f) ensures LiveEntry(s, f) {
      if f in s'.pel && Grabbed(s, f) {
        var d :| d in s.claims && s.claims[d].entry == f;
        assert d in s'.claims;
      }
    }
    forall d: nat | LiveClaim(s', d, t) ensures LiveClaim(s, d, t) {
    }
  }
}
