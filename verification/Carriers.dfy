/** No dispatched task is lost: in all runs, crashes and reclaims included, a
    dispatched task that is still queued or running has something that carries it. */
module Carriers {
  import opened Prelude
  import opened Graph
  import opened Planner
  import opened Lifecycle

  /** An undelivered entry, an un-ACKed delivery, or a handler between its claim
      and the point where the row is terminal or the redelivery is sent. */
  ghost predicate Carried(s: State, t: TaskId) {
    exists e | 0 <= e < |s.stream| && s.stream[e].task == t ::
      e >= s.cursor || e in s.pel || (e in s.workers && Holding(s.workers[e]))
  }

  predicate Holding(p: Phase) {
    p.Claimed? || p.Recorded? || p.RetryPending?
  }

  ghost predicate Resent(s: State, e: nat) {
    exists c | c in s.claims :: s.claims[c].entry == e && s.claims[c].sent
  }

  /** The handler of entry e stops although its delivery was already re-sent. */
  ghost predicate OrphaningStop(s: State, a: Action, t: TaskId) {
    && a.Stop? && a.e < |s.stream| && s.stream[a.e].task == t
    && a.e in s.workers && Holding(s.workers[a.e])
    && (a.e !in s.pel || Resent(s, a.e))
  }

  // An inductive form: entries about to be ACKed do not count as carriers, and
  // the task counts as sent from the enqueue on, before the row is marked.

  ghost predicate Spent(s: State, e: nat) {
    (e in s.workers && !s.workers[e].Live()) || Resent(s, e)
  }

  ghost predicate CarriedBy(s: State, t: TaskId, e: nat) {
    && e < |s.stream| && s.stream[e].task == t
    && (e >= s.cursor || (e in s.workers && Holding(s.workers[e])) || (e in s.pel && !Spent(s, e)))
  }

  ghost predicate AwaitsMark(s: State, t: TaskId) {
    || (Submitting(s, t.scan, Marking) && Current(s, t.scan).id == t)
    || (s.dispatcher.Dispatching? && t in s.dispatcher.sent)
  }

  ghost predicate Open(s: State, t: TaskId) {
    t in s.tasks && !s.tasks[t].state.Terminal() && (s.tasks[t].dispatched || AwaitsMark(s, t))
  }

  ghost predicate Covered(s: State, t: TaskId) {
    Open(s, t) ==> exists e :: CarriedBy(s, t, e)
  }

  lemma CoveredSubmit(s: State, a: Action, t: TaskId)
    requires QueueOk(|s.stream|, s.cursor, s.pel, s.workers, s.claims)
    requires DispatcherOk(s.dispatcher, s.tasks.Keys) && PlansOk(s.plans)
    requires Covered(s, t) && Enabled(s, a) && SubmitAction(a)
    ensures Covered(ApplySubmit(s, a), t)
  {
    var s' := ApplySubmit(s, a);
    if Open(s', t) {
      if a.Send? && Current(s, a.scan).id == t {
        assert CarriedBy(s', t, |s.stream|);
      } else {
        if a.Mark? || a.Insert? { CurrentScan(s, a.scan); }
        SubmitOpens(s, a, t);
        var e :| CarriedBy(s, t, e);
        assert Spent(s', e) == Spent(s, e);
        assert CarriedBy(s', t, e);
      }
    }
  }

  lemma SubmitOpens(s: State, a: Action, t: TaskId)
    requires DispatcherOk(s.dispatcher, s.tasks.Keys)
    requires Enabled(s, a) && SubmitAction(a) && Open(ApplySubmit(s, a), t)
    requires a.Mark? || a.Insert? ==> Current(s, a.scan).id.scan == a.scan
    requires !(a.Send? && Current(s, a.scan).id == t)
    ensures Open(s, t)
  {
  }

  lemma CurrentScan(s: State, scan: ScanId)
    requires PlansOk(s.plans) && scan in s.submissions && scan in s.plans && s.submissions[scan].pos < |s.plans[scan]|
    ensures Current(s, scan).id.scan == scan
  {
    assert Current(s, scan) in s.plans[scan];
  }

  lemma CoveredDispatch(s: State, a: Action, t: TaskId)
    requires QueueOk(|s.stream|, s.cursor, s.pel, s.workers, s.claims)
    requires Covered(s, t) && Enabled(s, a) && DispatchAction(a)
    ensures Covered(ApplyDispatch(s, a), t)
  {
    var s' := ApplyDispatch(s, a);
    if Open(s', t) {
      if a.SendReady? && s.dispatcher.todo[0] == t {
        assert CarriedBy(s', t, |s.stream|);
      } else {
        assert Open(s, t);
        var e :| CarriedBy(s, t, e);
        assert Spent(s', e) == Spent(s, e);
        assert CarriedBy(s', t, e);
      }
    }
  }

  lemma CoveredReclaim(s: State, a: Action, t: TaskId)
    requires QueueOk(|s.stream|, s.cursor, s.pel, s.workers, s.claims)
    requires Covered(s, t) && Enabled(s, a) && ReclaimAction(a)
    ensures Covered(ApplyReclaim(s, a), t)
  {
    var s' := ApplyReclaim(s, a);
    if Open(s', t) {
      if a.Requeue? && s.stream[s.claims[a.c].entry].task == t {
        assert CarriedBy(s', t, |s.stream|);
      } else {
        assert Open(s, t);
        var e :| CarriedBy(s, t, e);
        assert a.Requeue? ==> s.claims[a.c].entry != e;
        assert Resent(s', e) ==> Resent(s, e);
        assert CarriedBy(s', t, e);
      }
    }
  }

  lemma CoveredWorker(s: State, a: Action, t: TaskId)
    requires QueueOk(|s.stream|, s.cursor, s.pel, s.workers, s.claims)
    requires Covered(s, t) && Enabled(s, a) && WorkerAction(a) && !OrphaningStop(s, a, t)
    ensures Covered(ApplyWorker(s, a), t)
  {
    var s' := ApplyWorker(s, a);
    if Open(s', t) {
      if a.Resend? && s.stream[a.e].task == t {
        assert CarriedBy(s', t, |s.stream|);
      } else if (a.Retry? || a.TryClaim?) && s.stream[a.e].task == t {
        assert CarriedBy(s', t, a.e);
      } else {
        WorkerOpens(s, a, t);
        var e :| CarriedBy(s, t, e);
        KeepsCarrier(s, a, t, e);
      }
    }
  }

  lemma WorkerOpens(s: State, a: Action, t: TaskId)
    requires Enabled(s, a) && WorkerAction(a) && Open(ApplyWorker(s, a), t)
    requires (a.Resend? || a.Retry? || a.TryClaim?) ==> s.stream[a.e].task != t
    ensures Open(s, t)
  {
    assert AwaitsMark(ApplyWorker(s, a), t) ==> AwaitsMark(s, t);
  }

  /** A step of the handler of another entry, or one that does not concern t's sending. */
  ghost predicate Spares(s: State, a: Action, t: TaskId) {
    && Enabled(s, a) && WorkerAction(a) && !OrphaningStop(s, a, t)
    && t in s.tasks && !ApplyWorker(s, a).tasks[t].state.Terminal()
    && ((a.Resend? || a.Retry? || a.TryClaim?) ==> s.stream[a.e].task != t)
  }

  lemma KeepsUndelivered(s: State, a: Action, t: TaskId, e: nat)
    requires QueueOk(|s.stream|, s.cursor, s.pel, s.workers, s.claims)
    requires CarriedBy(s, t, e) && Spares(s, a, t) && e >= s.cursor
    ensures CarriedBy(ApplyWorker(s, a), t, e)
  {
    assert !Resent(s, e) && Resent(ApplyWorker(s, a), e) == Resent(s, e);
  }

  lemma KeepsDelivered(s: State, a: Action, t: TaskId, e: nat)
    requires QueueOk(|s.stream|, s.cursor, s.pel, s.workers, s.claims)
    requires CarriedBy(s, t, e) && Spares(s, a, t) && e < s.cursor
    ensures CarriedBy(ApplyWorker(s, a), t, e)
  {
    assert Resent(ApplyWorker(s, a), e) == Resent(s, e);
  }

  lemma KeepsCarrier(s: State, a: Action, t: TaskId, e: nat)
    requires QueueOk(|s.stream|, s.cursor, s.pel, s.workers, s.claims)
    requires CarriedBy(s, t, e) && Spares(s, a, t)
    ensures CarriedBy(ApplyWorker(s, a), t, e)
  {
    if e >= s.cursor {
      KeepsUndelivered(s, a, t, e);
    } else {
      KeepsDelivered(s, a, t, e);
    }
  }

  lemma CoveredStep(s: State, a: Action, t: TaskId)
    requires Basic(s) && Covered(s, t) && Enabled(s, a) && !OrphaningStop(s, a, t)
    ensures Covered(Apply(s, a), t)
  {
    if SubmitAction(a) {
      CoveredSubmit(s, a, t);
      assert Apply(s, a) == ApplySubmit(s, a);
    } else if DispatchAction(a) {
      CoveredDispatch(s, a, t);
      assert Apply(s, a) == ApplyDispatch(s, a);
    } else if ClosingAction(a) {
      CoveredClosing(s, a, t);
      assert Apply(s, a) == ApplyClosing(s, a);
    } else if ReclaimAction(a) {
      CoveredReclaim(s, a, t);
      assert Apply(s, a) == ApplyReclaim(s, a);
    } else {
      CoveredWorker(s, a, t);
      assert Apply(s, a) == ApplyWorker(s, a);
    }
  }

  lemma CoveredClosing(s: State, a: Action, t: TaskId)
    requires Covered(s, t) && Enabled(s, a) && ClosingAction(a)
    ensures Covered(ApplyClosing(s, a), t)
  {
    var s' := ApplyClosing(s, a);
    if Open(s', t) {
      assert Open(s, t);
      var e :| CarriedBy(s, t, e);
      assert Spent(s', e) == Spent(s, e);
      assert CarriedBy(s', t, e);
    }
  }

  /** An orphaning stop while no other entry carries the open task. */
  ghost predicate LosesLast(s: State, a: Action, t: TaskId) {
    OrphaningStop(s, a, t) && Open(s, t) && forall f | CarriedBy(s, t, f) :: f == a.e
  }

  lemma StopCarriers(s: State, e: nat, t: TaskId, f: nat)
    requires Enabled(s, Stop(e)) && OrphaningStop(s, Stop(e), t)
    requires QueueOk(|s.stream|, s.cursor, s.pel, s.workers, s.claims)
    ensures CarriedBy(ApplyWorker(s, Stop(e)), t, f) <==> CarriedBy(s, t, f) && f != e
  {
    assert Resent(ApplyWorker(s, Stop(e)), f) == Resent(s, f);
  }

  lemma StopOpen(s: State, e: nat, t: TaskId)
    requires Enabled(s, Stop(e))
    ensures Open(ApplyWorker(s, Stop(e)), t) == Open(s, t)
  {
  }

  /** A covered task loses its cover at a step iff its last carrier is orphaned by it. */
  lemma LosesIff(s: State, a: Action, t: TaskId)
    requires Basic(s) && Covered(s, t) && Enabled(s, a)
    ensures !Covered(Apply(s, a), t) <==> LosesLast(s, a, t)
  {
    if OrphaningStop(s, a, t) {
      assert Apply(s, a) == ApplyWorker(s, a);
      StopOpen(s, a.e, t);
      forall f: nat ensures CarriedBy(Apply(s, a), t, f) <==> CarriedBy(s, t, f) && f != a.e {
        StopCarriers(s, a.e, t, f);
      }
    } else {
      CoveredStep(s, a, t);
    }
  }

  lemma LosesAt(states: seq<State>, acts: seq<Action>, k: nat, t: TaskId)
    requires IsRun(states, acts) && k < |acts| && Covered(states[k], t)
    ensures !Covered(states[k + 1], t) <==> LosesLast(states[k], acts[k], t)
  {
    BasicRun(states, acts, k);
    RunStep(states, acts, k);
    LosesIff(states[k], acts[k], t);
  }

  lemma {:induction false} CoveredRun(states: seq<State>, acts: seq<Action>, n: nat, t: TaskId)
    requires IsRun(states, acts) && n <= |acts|
    requires forall i | 0 <= i < n :: !LosesLast(states[i], acts[i], t)
    ensures Covered(states[n], t)
  {
    if n > 0 {
      CoveredRun(states, acts, n - 1, t);
      LosesAt(states, acts, n - 1, t);
    }
  }

  /** No lost task. The only way out is that the last handler to carry the task stops
      after its delivery was re-sent by a reclaimer. */
  lemma NoLostTask(states: seq<State>, acts: seq<Action>, n: nat, t: TaskId)
    requires IsRun(states, acts) && n <= |acts|
    requires t in states[n].tasks && states[n].tasks[t].dispatched && !states[n].tasks[t].state.Terminal()
    ensures Carried(states[n], t) || exists i | 0 <= i < n :: LosesLast(states[i], acts[i], t)
  {
    if forall i | 0 <= i < n :: !LosesLast(states[i], acts[i], t) {
      CoveredRun(states, acts, n, t);
      var e :| CarriedBy(states[n], t, e);
    }
  }

  // The exclusion is needed: such a stop does lose a task.

  /** A world with one scan of one root task, already submitted. */
  ghost function OneTask(p: Planned, state: TaskState, result: Option<Verdict>, stream: seq<Message>, cursor: nat,
                         pel: set<nat>, workers: map<nat, Phase>, claims: map<nat, Claim>): State
  {
    State(map[p.id := Row(p.deps, p.gate, p.maxAttempts, state, true, result)], map[p.id.scan := Active],
          map[p.id.scan := [p]], {}, stream, cursor, pel, workers, claims, map[], Idle, map[])
  }

  ghost function Submitted(p: Planned): State {
    OneTask(p, Queued, None, [Message(p.id, 1)], 0, {}, map[], map[])
  }

  lemma SubmitOneTask(s0: State, p: Planned) returns (acts: seq<Action>)
    requires Init(s0) && p.deps == [] && PlanShape(p.id.scan, [p])
    ensures Exec(s0, acts, Submitted(p))
  {
    var scan := p.id.scan;
    var sub := (pos, point) => map[scan := Submission(pos, point)];
    var s1 := State(map[], map[scan := Pending], map[scan := [p]], {}, [], 0, {}, map[], map[],
                    sub(0, Inserting), Idle, map[]);
    assert s1 == Apply(s0, Begin(scan, [p]));
    var s2 := s1.(tasks := map[p.id := FreshRow(p)], submissions := sub(0, Sending));
    assert s2 == Apply(s1, Insert(scan));
    var s3 := s2.(stream := [Message(p.id, 1)], submissions := sub(0, Marking));
    assert s3 == Apply(s2, Send(scan));
    var s4 := s3.(tasks := map[p.id := FreshRow(p).(dispatched := true)], submissions := sub(1, Inserting));
    assert s4 == Apply(s3, Mark(scan));
    assert Submitted(p) == Apply(s4, Finish(scan));
    ExecOne(s0, Begin(scan, [p]), s1);
    acts := Steps([Begin(scan, [p])], s0, s1, Insert(scan), s2, Send(scan), s3);
    acts := Steps(acts, s0, s3, Mark(scan), s4, Finish(scan), Submitted(p));
  }

  lemma Steps(acts: seq<Action>, s0: State, s1: State, a: Action, s2: State, b: Action, s3: State)
    returns (more: seq<Action>)
    requires Exec(s0, acts, s1) && Next(s1, a, s2) && Next(s2, b, s3)
    ensures Exec(s0, more, s3)
  {
    ExecStep(s0, acts, s1, a, s2);
    ExecStep(s0, acts + [a], s2, b, s3);
    more := acts + [a] + [b];
  }

  /** The losing run after the submission: the first worker claims the task, its
      delivery is re-sent and ACKed under it, a second worker runs the redelivery
      to success, and the first one requeues the row and stops. */
  ghost function LosingState(p: Planned, k: nat): State
    requires k <= 12
  {
    var one, two := [Message(p.id, 1)], [Message(p.id, 1), Message(p.id, 2)];
    if k == 0 then Submitted(p)
    else if k == 1 then OneTask(p, Queued, None, one, 1, {0}, map[0 := Fetched], map[])
    else if k == 2 then OneTask(p, Running, None, one, 1, {0}, map[0 := Claimed], map[])
    else if k == 3 then OneTask(p, Running, None, one, 1, {0}, map[0 := Claimed], map[0 := Claim(0, false)])
    else if k == 4 then OneTask(p, Running, None, two, 1, {0}, map[0 := Claimed], map[0 := Claim(0, true)])
    else if k == 5 then OneTask(p, Running, None, two, 1, {}, map[0 := Claimed], map[])
    else if k == 6 then OneTask(p, Running, None, two, 2, {1}, map[0 := Claimed, 1 := Fetched], map[])
    else if k == 7 then OneTask(p, Running, None, two, 2, {1}, map[0 := Claimed, 1 := Claimed], map[])
    else if k == 8 then OneTask(p, Running, None, two, 2, {1}, map[0 := Claimed, 1 := Recorded], map[])
    else if k == 9 then
      OneTask(p, Succeeded, Some(Completed), two, 2, {1}, map[0 := Claimed, 1 := Finished], map[])
    else if k == 10 then OneTask(p, Succeeded, Some(Completed), two, 2, {}, map[0 := Claimed], map[])
    else if k == 11 then OneTask(p, Queued, Some(Completed), two, 2, {}, map[0 := RetryPending], map[])
    else OneTask(p, Queued, Some(Completed), two, 2, {}, map[], map[])
  }

  const LOSING_ACTIONS: seq<Action> :=
    [Deliver, TryClaim(0), Grab(0, 0), Requeue(0), Release(0), Deliver, TryClaim(1), Record(1, {}),
     Conclude(1, Completed), Ack(1), Retry(0), Stop(0)]

  lemma LosingSteps0(p: Planned, k: nat)
    requires k < 3
    ensures Next(LosingState(p, k), LOSING_ACTIONS[k], LosingState(p, k + 1))
  {
    if k == 0 {} else if k == 1 {} else {}
  }

  lemma LosingSteps1(p: Planned, k: nat)
    requires 3 <= k < 6
    ensures Next(LosingState(p, k), LOSING_ACTIONS[k], LosingState(p, k + 1))
  {
    if k == 3 {} else if k == 4 {} else {}
  }

  lemma LosingSteps2(p: Planned, k: nat)
    requires 6 <= k < 8
    ensures Next(LosingState(p, k), LOSING_ACTIONS[k], LosingState(p, k + 1))
  {
    if k == 6 {} else {}
  }

  lemma LosingSteps3(p: Planned, k: nat)
    requires 8 <= k < 10
    ensures Next(LosingState(p, k), LOSING_ACTIONS[k], LosingState(p, k + 1))
  {
    if k == 8 {} else {}
  }

  lemma LosingSteps4(p: Planned, k: nat)
    requires 10 <= k < 12 && p.maxAttempts >= 2
    ensures Next(LosingState(p, k), LOSING_ACTIONS[k], LosingState(p, k + 1))
  {
    if k == 10 {} else {}
  }

  lemma LosingStep(p: Planned, k: nat)
    requires k < 12 && p.maxAttempts >= 2
    ensures Next(LosingState(p, k), LOSING_ACTIONS[k], LosingState(p, k + 1))
  {
    if k < 3 { LosingSteps0(p, k); }
    else if k < 6 { LosingSteps1(p, k); }
    else if k < 8 { LosingSteps2(p, k); }
    else if k < 10 { LosingSteps3(p, k); }
    else { LosingSteps4(p, k); }
  }

  lemma {:induction false} LosingTail(p: Planned, k: nat) returns (acts: seq<Action>)
    requires k <= 12 && p.maxAttempts >= 2
    ensures Exec(LosingState(p, k), acts, LosingState(p, 12))
    decreases 12 - k
  {
    ExecNone(LosingState(p, 12));
    acts := [];
    if k < 12 {
      LosingStep(p, k);
      var rest := LosingTail(p, k + 1);
      ExecCons(LosingState(p, k), LOSING_ACTIONS[k], LosingState(p, k + 1), rest, LosingState(p, 12));
      acts := [LOSING_ACTIONS[k]] + rest;
    }
  }

  lemma LosingStateLoses(p: Planned)
    ensures LosingState(p, 0) == Submitted(p)
    ensures var s := LosingState(p, 12);
            p.id in s.tasks && s.tasks[p.id].dispatched && s.tasks[p.id].state.Queued? && !Carried(s, p.id)
  {
  }

  lemma OrphaningStopLosesTask(s0: State, p: Planned) returns (acts: seq<Action>, s': State)
    requires Init(s0) && p.deps == [] && PlanShape(p.id.scan, [p]) && p.maxAttempts >= 2
    ensures Exec(s0, acts, s')
    ensures p.id in s'.tasks && s'.tasks[p.id].dispatched && s'.tasks[p.id].state.Queued?
    ensures !Carried(s', p.id)
  {
    var submit := SubmitOneTask(s0, p);
    var tail := LosingTail(p, 0);
    LosingStateLoses(p);
    s' := LosingState(p, 12);
    ExecAppend(s0, submit, Submitted(p), tail, s');
    acts := submit + tail;
  }
}
