/** The other way for a scan to stay open: an error before or during a tool run stops the
    handler without an outcome, and the delivery comes back for ever. */
module Unending {
  import opened Prelude
  import opened Graph
  import opened Planner
  import opened Lifecycle
  import opened Retries
  import opened Orderly
  import opened CleanRuns
  import opened Handler
  import opened Deliveries
  import Refusal
  import Runs
  import Traces
  import Logs

  // ----------------------------------------------------- what ends a task

  /** A terminal outcome of the task, or a cascade that hits it while it is queued. */
  ghost predicate Ends(s: State, a: Action, t: TaskId) {
    || (a.Conclude? && IsFor(s, a.e, t))
    || (a.Cascade? && a.e < |s.stream| && s.stream[a.e].task.scan == t.scan &&
        t in s.tasks && s.tasks[t].state.Queued? && Hit(RowEdges(s.tasks, t.scan), s.stream[a.e].task.step, t.step))
  }

  ghost predicate Unfinished(s: State, t: TaskId) {
    t in s.tasks && !s.tasks[t].state.Terminal()
  }

  lemma WorkerEnds(s: State, a: Action, t: TaskId)
    requires Enabled(s, a) && WorkerAction(a) && Unfinished(s, t)
    ensures Unfinished(ApplyWorker(s, a), t) <==> !Ends(s, a, t)
  {
  }

  /** An unfinished task ends by these steps and by no others. */
  lemma EndsIff(s: State, a: Action, t: TaskId)
    requires Enabled(s, a) && Unfinished(s, t)
    ensures Unfinished(Apply(s, a), t) <==> !Ends(s, a, t)
  {
    if SubmitAction(a) {
      assert Apply(s, a) == ApplySubmit(s, a);
    } else if DispatchAction(a) {
      assert Apply(s, a) == ApplyDispatch(s, a);
    } else if WorkerAction(a) {
      assert Apply(s, a) == ApplyWorker(s, a);
      WorkerEnds(s, a, t);
    }
  }

  /** No step of the path from i to n ends the task. */
  ghost predicate NeverEnds(states: seq<State>, acts: seq<Action>, i: nat, n: nat, t: TaskId)
    requires n <= |acts| <= |states|
  {
    forall k | i <= k < n :: !Ends(states[k], acts[k], t)
  }

  lemma {:induction false} UnfinishedStays(states: seq<State>, acts: seq<Action>, i: nat, n: nat, t: TaskId)
    requires Path(states, acts) && i <= n <= |acts| && Unfinished(states[i], t) && NeverEnds(states, acts, i, n, t)
    ensures Unfinished(states[n], t) && !Closable(states[n], t.scan)
    decreases n
  {
    if i < n {
      UnfinishedStays(states, acts, i, n - 1, t);
      RunStep(states, acts, n - 1);
      EndsIff(states[n - 1], acts[n - 1], t);
    }
  }

  /** The scan runs and nobody is about to close it. */
  ghost predicate ScanRuns(s: State, scan: ScanId) {
    scan in s.scans && s.scans[scan].Active? && scan !in s.closing
  }

  lemma StaysRunning(s: State, a: Action, scan: ScanId)
    requires Enabled(s, a) && ScanRuns(s, scan) && !Closable(s, scan)
    ensures ScanRuns(Apply(s, a), scan)
  {
    if SubmitAction(a) {
      assert Apply(s, a) == ApplySubmit(s, a);
    } else if ClosingAction(a) {
      assert Apply(s, a) == ApplyClosing(s, a);
    } else {
      KeepsScans(s, a);
    }
  }

  /** In all runs, whatever stops, is reclaimed or redelivered: until some step ends an
      unfinished task, it stays unfinished and its running scan is not closed. */
  lemma {:induction false} OpenUntilEnded(states: seq<State>, acts: seq<Action>, i: nat, n: nat, t: TaskId)
    requires Path(states, acts) && i <= n <= |acts|
    requires Unfinished(states[i], t) && ScanRuns(states[i], t.scan) && NeverEnds(states, acts, i, n, t)
    ensures Unfinished(states[n], t) && ScanRuns(states[n], t.scan)
    decreases n
  {
    UnfinishedStays(states, acts, i, n, t);
    if i < n {
      OpenUntilEnded(states, acts, i, n - 1, t);
      UnfinishedStays(states, acts, i, n - 1, t);
      RunStep(states, acts, n - 1);
      StaysRunning(states[n - 1], acts[n - 1], t.scan);
    }
  }

  // ------------------------------------------- handlers that end by an error

  /** An address error in the scope gate, a tool without its input, or another error that
      nobody catches. */
  predicate Raising(w: World, starved: bool) {
    || w.scope.Raises?
    || (GatesPassed(w) &&
        (starved || w.contextBreaks || w.arguments.Raises? || (w.arguments.Passes? && w.run.Breaks?)))
  }

  ghost predicate Settles(a: Action) {
    a.Conclude? || a.Retry? || a.Ack?
  }

  /** A claimed delivery ends with neither outcome nor retry nor ACK iff one of these
      errors is raised; then the handler just stops. */
  lemma RaisesIff(e: nat, maxAttempts: int, attempt: int, w: World, starved: bool)
    requires w.wellFormed
    ensures var own := Script(e, Some(maxAttempts), attempt, w, starved);
            && (Raising(w, starved) <==> own == [TryClaim(e), Stop(e)])
            && (Raising(w, starved) <==> forall a | a in own :: !Settles(a))
  {
    var own, after := Script(e, Some(maxAttempts), attempt, w, starved), AfterClaim(e, attempt, maxAttempts, w, starved);
    assert own == [TryClaim(e)] + after && own[1..] == after;
    if !Raising(w, starved) {
      assert after[|after| - 1] == Ack(e) && own[|own| - 1] == Ack(e) && own[|own| - 1] in own;
    }
  }

  ghost predicate Released(s: State, a: Action, e: nat) {
    a.Release? && a.c in s.claims && s.claims[a.c].entry == e
  }

  lemma StepKeepsPending(s: State, a: Action, e: nat)
    requires Enabled(s, a) && e in s.pel && a != Ack(e) && !Released(s, a, e)
    ensures e in Apply(s, a).pel
  {
    if WorkerAction(a) {
      assert Apply(s, a) == ApplyWorker(s, a);
    } else if ReclaimAction(a) {
      assert Apply(s, a) == ApplyReclaim(s, a);
    }
  }

  lemma {:induction false} PendingStays(states: seq<State>, acts: seq<Action>, n: nat, e: nat)
    requires Path(states, acts) && n <= |acts| && e in states[0].pel
    requires forall k | 0 <= k < n :: acts[k] != Ack(e) && !Released(states[k], acts[k], e)
    ensures e in states[n].pel
  {
    if n > 0 {
      PendingStays(states, acts, n - 1, e);
      RunStep(states, acts, n - 1);
      StepKeepsPending(states[n - 1], acts[n - 1], e);
    }
  }

  /** Such a handler leaves its task unfinished in every state of its log, its scan open
      and its delivery un-ACKed, unless somebody else ends the task or reclaims the
      delivery. */
  lemma RaisedStaysPending(log: Traces.Log, now: State, e: nat, maxAttempts: int, attempt: int, w: World, starved: bool,
                           t: TaskId)
    requires Traces.Logged(log, HandlerOf(e), now)
    requires log.own == Script(e, Some(maxAttempts), attempt, w, starved) && w.wellFormed && Raising(w, starved)
    requires Unfinished(log.states[0], t) && ScanRuns(log.states[0], t.scan) && e in log.states[0].pel
    requires forall k | 0 <= k < |log.trace| && !HandlerOf(e)(log.trace[k]) ::
               !Ends(log.states[k], log.trace[k], t) && !Released(log.states[k], log.trace[k], e)
    ensures forall k | 0 <= k <= |log.trace| :: Unfinished(log.states[k], t) && ScanRuns(log.states[k], t.scan)
    ensures e in now.pel
  {
    RaisesIff(e, maxAttempts, attempt, w, starved);
    forall k | 0 <= k < |log.trace|
      ensures !Ends(log.states[k], log.trace[k], t) && log.trace[k] != Ack(e) && !Released(log.states[k], log.trace[k], e)
    {
      OwnIsHarmless(log, e, k, t);
    }
    forall k | 0 <= k <= |log.trace| ensures Unfinished(log.states[k], t) && ScanRuns(log.states[k], t.scan) {
      OpenUntilEnded(log.states, log.trace, 0, k, t);
    }
    PendingStays(log.states, log.trace, |log.trace|, e);
  }

  lemma OwnIsHarmless(log: Traces.Log, e: nat, k: nat, t: TaskId)
    requires Traces.OwnSteps(HandlerOf(e), log.trace) == [TryClaim(e), Stop(e)] && k < |log.trace| < |log.states|
    requires !HandlerOf(e)(log.trace[k]) ==>
               !Ends(log.states[k], log.trace[k], t) && !Released(log.states[k], log.trace[k], e)
    ensures !Ends(log.states[k], log.trace[k], t) && log.trace[k] != Ack(e) && !Released(log.states[k], log.trace[k], e)
  {
    if HandlerOf(e)(log.trace[k]) {
      Logs.OwnListed(HandlerOf(e), log.trace, k);
      assert log.trace[k] == TryClaim(e) || log.trace[k] == Stop(e);
    }
  }

  // ------------------------------------------------- executions without end

  /** An orderly step that records no outcome of t; handlers of t stop, and only where
      they stand claimed and the tool is starved. */
  ghost predicate FruitlessStep(s: State, a: Action, t: TaskId, tool: Tool) {
    && Enabled(s, a) && OrderlyStep(s, a, t) && !Outcome(s, a, t)
    && (a.Stop? && IsFor(s, a.e, t) ==> s.workers[a.e].Claimed? && Starved(s, t.scan, tool))
  }

  ghost predicate FruitlessAt(states: seq<State>, acts: seq<Action>, i: nat, t: TaskId, tool: Tool) {
    i < |acts| && i < |states| && FruitlessStep(states[i], acts[i], t, tool)
  }

  ghost predicate Fruitless(states: seq<State>, acts: seq<Action>, t: TaskId, tool: Tool) {
    forall i: nat | i < |acts| :: FruitlessAt(states, acts, i, t, tool)
  }

  ghost predicate FruitlessExec(s: State, acts: seq<Action>, s': State, t: TaskId, tool: Tool) {
    exists states :: Leads(states, s, acts, s') && Fruitless(states, acts, t, tool)
  }

  lemma FruitlessOne(s: State, a: Action, s': State, t: TaskId, tool: Tool)
    requires Next(s, a, s') && FruitlessStep(s, a, t, tool)
    ensures FruitlessExec(s, [a], s', t, tool)
  {
    assert StepAt([s, s'], [a], 0) && FruitlessAt([s, s'], [a], 0, t, tool);
    assert Leads([s, s'], s, [a], s');
  }

  lemma FruitlessAppend(s: State, a: seq<Action>, m: State, b: seq<Action>, s': State, t: TaskId, tool: Tool)
    requires FruitlessExec(s, a, m, t, tool) && FruitlessExec(m, b, s', t, tool)
    ensures FruitlessExec(s, a + b, s', t, tool)
  {
    var states :| Leads(states, s, a, m) && Fruitless(states, a, t, tool);
    var more :| Leads(more, m, b, s') && Fruitless(more, b, t, tool);
    PathAppend(states, a, more, b);
    var all := states + more[1..];
    assert Leads(all, s, a + b, s');
    forall i: nat | i < |a + b| ensures FruitlessAt(all, a + b, i, t, tool) {
      if i < |a| {
        assert FruitlessAt(states, a, i, t, tool) && all[i] == states[i];
      } else {
        assert FruitlessAt(more, b, i - |a|, t, tool) && all[i] == more[i - |a|];
      }
    }
  }

  lemma FruitlessOn(s: State, acts: seq<Action>, m: State, a: Action, s': State, t: TaskId, tool: Tool)
    requires FruitlessExec(s, acts, m, t, tool) && Next(m, a, s') && FruitlessStep(m, a, t, tool)
    ensures FruitlessExec(s, acts + [a], s', t, tool)
  {
    FruitlessOne(m, a, s', t, tool);
    FruitlessAppend(s, acts, m, [a], s', t, tool);
  }

  /** Whatever happens before a task is first sent is fruitless for it. */
  lemma BeforeSent(s: State, acts: seq<Action>, s': State, t: TaskId, tool: Tool)
    requires Exec(s, acts, s') && Unsent(s', t)
    ensures FruitlessExec(s, acts, s', t, tool)
  {
    var states :| Leads(states, s, acts, s');
    forall i: nat | i < |acts| ensures FruitlessAt(states, acts, i, t, tool) {
      Runs.GrowsRun(states, acts, i, |acts|);
      RunStep(states, acts, i);
      forall e ensures !IsFor(states[i], e, t) {
        assert IsFor(states[i], e, t) ==> IsFor(s', e, t);
      }
    }
  }

  // ------------------------------------------------------- one redelivery

  /** The only undelivered entry is one of t, which is unfinished; nothing is handled or
      claimed. */
  ghost predicate Lone(s: State, t: TaskId) {
    && s.cursor + 1 == |s.stream| && s.stream[s.cursor].task == t && Unfinished(s, t)
    && s.workers == map[] && s.claims == map[] && forall e | e in s.pel :: e < s.cursor
  }

  /** Delivered, claimed, stopped, and sent again by a reclaimer. */
  ghost function Redelivered(s: State, t: TaskId): State
    requires Lone(s, t)
  {
    s.(tasks := SetState(s.tasks, t, Running), cursor := s.cursor + 1,
       stream := s.stream + [Message(t, s.stream[s.cursor].attempt + 1)])
  }

  ghost function Delivered(s: State, t: TaskId): State {
    s.(cursor := s.cursor + 1, pel := s.pel + {s.cursor}, workers := map[s.cursor := Fetched])
  }

  ghost function InHand(s: State, t: TaskId, workers: map<nat, Phase>, claims: map<nat, Claim>): State
    requires t in s.tasks
  {
    s.(tasks := SetState(s.tasks, t, Running), cursor := s.cursor + 1, pel := s.pel + {s.cursor},
       workers := workers, claims := claims)
  }

  lemma DeliveredNext(s: State, t: TaskId, tool: Tool)
    requires Lone(s, t)
    ensures Next(s, Deliver, Delivered(s, t)) && FruitlessStep(s, Deliver, t, tool)
  {
    assert Delivered(s, t) == ApplyWorker(s, Deliver);
  }

  lemma ClaimedNext(s: State, t: TaskId, tool: Tool)
    requires Lone(s, t)
    ensures var e := s.cursor;
            Next(Delivered(s, t), TryClaim(e), InHand(s, t, map[e := Claimed], map[])) &&
            FruitlessStep(Delivered(s, t), TryClaim(e), t, tool)
  {
    assert Claimable(Delivered(s, t), s.cursor);
    assert InHand(s, t, map[s.cursor := Claimed], map[]) == ApplyWorker(Delivered(s, t), TryClaim(s.cursor));
  }

  lemma StoppedNext(s: State, t: TaskId, tool: Tool)
    requires Lone(s, t) && Starved(s, t.scan, tool)
    ensures var e, held := s.cursor, InHand(s, t, map[s.cursor := Claimed], map[]);
            Next(held, Stop(e), InHand(s, t, map[], map[])) && FruitlessStep(held, Stop(e), t, tool)
  {
    assert InHand(s, t, map[], map[]) == ApplyWorker(InHand(s, t, map[s.cursor := Claimed], map[]), Stop(s.cursor));
  }

  lemma FruitlessThree(s0: State, a: Action, s1: State, b: Action, s2: State, c: Action, s3: State, t: TaskId, tool: Tool)
    returns (acts: seq<Action>)
    requires Next(s0, a, s1) && FruitlessStep(s0, a, t, tool) && Next(s1, b, s2) && FruitlessStep(s1, b, t, tool)
    requires Next(s2, c, s3) && FruitlessStep(s2, c, t, tool)
    ensures FruitlessExec(s0, acts, s3, t, tool)
  {
    FruitlessOne(s0, a, s1, t, tool);
    FruitlessOn(s0, [a], s1, b, s2, t, tool);
    FruitlessOn(s0, [a] + [b], s2, c, s3, t, tool);
    acts := [a] + [b] + [c];
  }

  lemma HandlerStops(s: State, t: TaskId, tool: Tool) returns (acts: seq<Action>)
    requires Lone(s, t) && Starved(s, t.scan, tool)
    ensures FruitlessExec(s, acts, InHand(s, t, map[], map[]), t, tool)
  {
    var e := s.cursor;
    DeliveredNext(s, t, tool);
    ClaimedNext(s, t, tool);
    StoppedNext(s, t, tool);
    acts := FruitlessThree(s, Deliver, Delivered(s, t), TryClaim(e), InHand(s, t, map[e := Claimed], map[]), Stop(e),
                           InHand(s, t, map[], map[]), t, tool);
  }

  ghost function Resent(s: State, t: TaskId): State
    requires Lone(s, t)
  {
    InHand(s, t, map[], map[0 := Claim(s.cursor, true)])
      .(stream := s.stream + [Message(t, s.stream[s.cursor].attempt + 1)])
  }

  lemma GrabNext(s: State, t: TaskId, tool: Tool)
    requires Lone(s, t)
    ensures var s3 := InHand(s, t, map[], map[]);
            Next(s3, Grab(0, s.cursor), InHand(s, t, map[], map[0 := Claim(s.cursor, false)])) &&
            FruitlessStep(s3, Grab(0, s.cursor), t, tool)
  {
    var s3 := InHand(s, t, map[], map[]);
    assert InHand(s, t, map[], map[0 := Claim(s.cursor, false)]) == ApplyReclaim(s3, Grab(0, s.cursor));
  }

  lemma RequeueNext(s: State, t: TaskId, tool: Tool)
    requires Lone(s, t)
    ensures var s4 := InHand(s, t, map[], map[0 := Claim(s.cursor, false)]);
            Next(s4, Requeue(0), Resent(s, t)) && FruitlessStep(s4, Requeue(0), t, tool)
  {
    assert Resent(s, t) == ApplyReclaim(InHand(s, t, map[], map[0 := Claim(s.cursor, false)]), Requeue(0));
  }

  lemma ReleaseNext(s: State, t: TaskId, tool: Tool)
    requires Lone(s, t)
    ensures Next(Resent(s, t), Release(0), Redelivered(s, t)) && FruitlessStep(Resent(s, t), Release(0), t, tool)
  {
    assert s.pel + {s.cursor} - {s.cursor} == s.pel;
    assert Redelivered(s, t) == ApplyReclaim(Resent(s, t), Release(0));
  }

  lemma SweepResends(s: State, t: TaskId, tool: Tool) returns (acts: seq<Action>)
    requires Lone(s, t)
    ensures FruitlessExec(InHand(s, t, map[], map[]), acts, Redelivered(s, t), t, tool)
  {
    GrabNext(s, t, tool);
    RequeueNext(s, t, tool);
    ReleaseNext(s, t, tool);
    acts := FruitlessThree(InHand(s, t, map[], map[]), Grab(0, s.cursor),
                           InHand(s, t, map[], map[0 := Claim(s.cursor, false)]), Requeue(0), Resent(s, t), Release(0),
                           Redelivered(s, t), t, tool);
  }

  lemma OneRound(s: State, t: TaskId, tool: Tool) returns (acts: seq<Action>)
    requires Lone(s, t) && Starved(s, t.scan, tool)
    ensures FruitlessExec(s, acts, Redelivered(s, t), t, tool)
    ensures Lone(Redelivered(s, t), t) && Starved(Redelivered(s, t), t.scan, tool)
  {
    var stops := HandlerStops(s, t, tool);
    var sends := SweepResends(s, t, tool);
    FruitlessAppend(s, stops, InHand(s, t, map[], map[]), sends, Redelivered(s, t), t, tool);
    acts := stops + sends;
  }

  // ------------------------------------------------------------ and so on

  /** Messages of t with attempts counted up from the given one. */
  ghost function Attempts(t: TaskId, first: int, n: nat): seq<Message> {
    seq(n, i => Message(t, first + i))
  }

  /** n deliveries later: nothing has changed but that the row is running and the
      attempts have been counted up. */
  ghost predicate RoundsOn(s: State, t: TaskId, n: nat, s': State)
    requires Lone(s, t)
  {
    s' == s.(tasks := if n == 0 then s.tasks else SetState(s.tasks, t, Running), cursor := s.cursor + n,
             stream := s.stream + Attempts(t, s.stream[s.cursor].attempt + 1, n))
  }

  lemma NextRound(s: State, t: TaskId, n: nat, m: State)
    requires Lone(s, t) && RoundsOn(s, t, n, m) && Lone(m, t)
    ensures RoundsOn(s, t, n + 1, Redelivered(m, t))
  {
    var first := s.stream[s.cursor].attempt + 1;
    assert m.stream[m.cursor].attempt + 1 == first + n by {
      if n > 0 {
        assert m.stream[m.cursor] == Attempts(t, first, n)[n - 1];
      }
    }
    assert Attempts(t, first, n) + [Message(t, first + n)] == Attempts(t, first, n + 1);
    assert Redelivered(m, t).stream == s.stream + Attempts(t, first, n + 1);
  }

  lemma {:induction false} Rounds(s: State, t: TaskId, tool: Tool, n: nat) returns (acts: seq<Action>, s': State)
    requires Lone(s, t) && Starved(s, t.scan, tool)
    ensures FruitlessExec(s, acts, s', t, tool) && RoundsOn(s, t, n, s')
    ensures Lone(s', t) && Starved(s', t.scan, tool)
  {
    if n == 0 {
      s', acts := s, [];
      assert Leads([s], s, [], s) && Fruitless([s], [], t, tool);
      assert s.stream + Attempts(t, s.stream[s.cursor].attempt + 1, 0) == s.stream;
    } else {
      var m, before;
      before, m := Rounds(s, t, tool, n - 1);
      var round := OneRound(m, t, tool);
      s', acts := Redelivered(m, t), before + round;
      FruitlessAppend(s, before, m, round, s', t, tool);
      NextRound(s, t, n - 1, m);
    }
  }

  // -------------------------------------------------- a workflow that does it

  /** The root of a chain has succeeded and has found nothing. */
  ghost function Barren(p: Planned, q: Planned, workers: map<nat, Phase>): State {
    Refusal.Halted(p, q, Refusal.Root(p, Succeeded, Some(Completed)), 1, workers)
  }

  lemma RootFindsNothing(s0: State, p: Planned, q: Planned) returns (acts: seq<Action>)
    requires Init(s0) && Refusal.Chain(p, q)
    ensures Exec(s0, acts, Barren(p, q, map[]))
  {
    Refusal.SubmitChain(s0, p, q);
    var scan, submitted := p.id.scan, Refusal.Stage(p, q, 0);
    assert Enabled(s0, Begin(scan, [p, q]));
    var before := SubmitIsRun(s0, scan, [p, q]);
    assert Submitted(s0, scan, [p, q]) == submitted;
    var worked := RunsToSuccess(submitted, p.id, {});
    BarrenThen(p, q);
    ExecAppend(s0, before, submitted, worked, Barren(p, q, map[]));
    acts := before + worked;
  }

  lemma BarrenThen(p: Planned, q: Planned)
    requires q.id != p.id
    ensures var s := Refusal.Stage(p, q, 0);
            NextEntry(s, p.id) && Handed(s, SucceededRow(s.tasks[p.id]), Reported(p.id.scan, {})) == Barren(p, q, map[])
  {
    var s, row := Refusal.Stage(p, q, 0), Refusal.Root(p, Succeeded, Some(Completed));
    assert s.tasks[p.id := row] == Barren(p, q, map[]).tasks && Reported(p.id.scan, {}) == {};
  }

  lemma DependentReady(p: Planned, q: Planned)
    requires Refusal.Chain(p, q) && q.gate.None?
    ensures ReadyBatch(Barren(p, q, map[]), [q.id]) && Unsent(Barren(p, q, map[]), q.id)
  {
    var s := Barren(p, q, map[]);
    assert q in [p, q] && p in [p, q] && PlanShape(p.id.scan, [p, q]);
    if q.id.step in q.deps {
      EdgeReaches(PlanEdges([p, q]), q.id.step, q.id.step);
    }
    assert Ready(s, q.id);
    assert forall t :: Ready(s, t) ==> t in [q.id];
  }

  lemma BatchRead(p: Planned, q: Planned, tool: Tool)
    requires Refusal.Chain(p, q) && ReadyBatch(Barren(p, q, map[]), [q.id])
    ensures var s := Barren(p, q, map[]);
            Next(s, ReadReady([q.id]), HalfDispatched(s, [q.id], 0)) && FruitlessStep(s, ReadReady([q.id]), q.id, tool)
    ensures Unsent(HalfDispatched(Barren(p, q, map[]), [q.id], 0), q.id)
  {
    var s, batch := Barren(p, q, map[]), [q.id];
    var first := HalfDispatched(s, batch, 0);
    assert batch[0..] == batch && batch[..0] == [] && first.stream == s.stream;
    assert first == ApplyDispatch(s, ReadReady(batch));
  }

  lemma BatchMarked(s: State, t: TaskId, tool: Tool)
    requires s.dispatcher.Idle? && ReadyBatch(s, [t])
    ensures Next(HalfDispatched(s, [t], 1), MarkReady, Moved(s, Dispatch([t])))
    ensures FruitlessStep(HalfDispatched(s, [t], 1), MarkReady, t, tool)
  {
    assert [t][..1] == [t] && [t][1..] == [];
    assert Moved(s, Dispatch([t])) == ApplyDispatch(HalfDispatched(s, [t], 1), MarkReady);
  }

  lemma DependentSent(p: Planned, q: Planned, tool: Tool) returns (acts: seq<Action>)
    requires Refusal.Chain(p, q) && ReadyBatch(Barren(p, q, map[]), [q.id])
    ensures FruitlessExec(Barren(p, q, map[]), acts, Moved(Barren(p, q, map[]), Dispatch([q.id])), q.id, tool)
  {
    var s, batch := Barren(p, q, map[]), [q.id];
    BatchRead(p, q, tool);
    DispatchOne(s, batch, 0);
    BatchMarked(s, q.id, tool);
    acts := FruitlessThree(s, ReadReady(batch), HalfDispatched(s, batch, 0), SendReady, HalfDispatched(s, batch, 1),
                           MarkReady, Moved(s, Dispatch(batch)), q.id, tool);
  }

  /** The dependent task has been delivered n times and is in the queue again. */
  ghost predicate Redeliveries(s: State, p: Planned, q: Planned, n: nat) {
    && s.stream == [Message(p.id, 1)] + Attempts(q.id, 1, n + 1) && s.cursor == n + 1
    && s.pel == {} && s.workers == map[] && s.claims == map[]
    && s.tasks.Keys == {p.id, q.id} && s.tasks[p.id].state.Succeeded?
    && s.tasks[q.id].dispatched && s.tasks[q.id].maxAttempts == q.maxAttempts
    && s.tasks[q.id].state == if n == 0 then Queued else Running
  }

  /** A task whose dependencies succeeded without a finding that its tool needs, in a
      workflow without gates and refusals: for every n there is a run, orderly for the
      task, in which it has been delivered n times, its attempts counted up past any
      limit, every handler having stopped where its tool is starved, no outcome
      recorded, and the scan still running. */
  lemma InputErrorForEver(s0: State, p: Planned, q: Planned, tool: Tool, n: nat)
    returns (states: seq<State>, acts: seq<Action>)
    requires Init(s0) && Refusal.Chain(p, q) && q.gate.None? && tool.needsFile
    ensures IsRun(states, acts) && OrderlyRun(states, acts, |acts|, q.id) && Fruitless(states, acts, q.id, tool)
    ensures Redeliveries(states[|acts|], p, q, n) && ScanRuns(states[|acts|], p.id.scan)
    ensures Starved(states[|acts|], p.id.scan, tool)
  {
    var barren := Barren(p, q, map[]);
    var sent := Moved(barren, Dispatch([q.id]));
    DependentReady(p, q);
    LoneAtFirst(p, q);
    var a := SentUnfed(s0, p, q, tool);
    var c, s' := Rounds(sent, q.id, tool, n);
    FruitlessAppend(s0, a, sent, c, s', q.id, tool);
    acts := a + c;
    states :| Leads(states, s0, acts, s') && Fruitless(states, acts, q.id, tool);
    forall i: nat | i < |acts| ensures OrderlyAt(states, acts, i, q.id) {
      assert FruitlessAt(states, acts, i, q.id, tool);
    }
    RoundsCounted(sent, p, q, n, s');
  }

  /** Up to the first message of the dependent task. */
  lemma SentUnfed(s0: State, p: Planned, q: Planned, tool: Tool) returns (acts: seq<Action>)
    requires Init(s0) && Refusal.Chain(p, q) && ReadyBatch(Barren(p, q, map[]), [q.id])
    requires Unsent(Barren(p, q, map[]), q.id)
    ensures FruitlessExec(s0, acts, Moved(Barren(p, q, map[]), Dispatch([q.id])), q.id, tool)
  {
    var barren := Barren(p, q, map[]);
    var a := RootFindsNothing(s0, p, q);
    BeforeSent(s0, a, barren, q.id, tool);
    var b := DependentSent(p, q, tool);
    FruitlessAppend(s0, a, barren, b, Moved(barren, Dispatch([q.id])), q.id, tool);
    acts := a + b;
  }

  lemma RoundsCounted(sent: State, p: Planned, q: Planned, n: nat, s': State)
    requires q.id != p.id && sent.stream == [Message(p.id, 1), Message(q.id, 1)] && sent.cursor == 1 && sent.pel == {}
    requires sent.tasks.Keys == {p.id, q.id} && sent.tasks[p.id].state.Succeeded?
    requires sent.tasks[q.id] == FreshRow(q).(dispatched := true)
    requires Lone(sent, q.id) && RoundsOn(sent, q.id, n, s')
    ensures Redeliveries(s', p, q, n)
  {
    assert Attempts(q.id, 1, n + 1) == [Message(q.id, 1)] + Attempts(q.id, 2, n);
    assert s'.stream == [Message(p.id, 1)] + Attempts(q.id, 1, n + 1);
  }

  lemma LoneAtFirst(p: Planned, q: Planned)
    requires Refusal.Chain(p, q) && Possible(Barren(p, q, map[]), Dispatch([q.id]))
    ensures var s := Moved(Barren(p, q, map[]), Dispatch([q.id]));
            Lone(s, q.id) && s.stream == [Message(p.id, 1), Message(q.id, 1)]
  {
    var s := Moved(Barren(p, q, map[]), Dispatch([q.id]));
    assert FirstMessages([q.id]) == [Message(q.id, 1)];
    assert s.stream == [Message(p.id, 1)] + [Message(q.id, 1)];
  }
}
