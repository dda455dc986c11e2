/** Clean runs come to rest: a measure drops with every move that is not a
    submission, and a run that is not at rest can move. */
module Progress {
  import opened Prelude
  import opened Graph
  import opened Planner
  import opened Lifecycle
  import opened CleanRuns
  import opened CleanFlow
  import opened CleanCascade
  import opened CleanTheorems

  // ---------------------------------------------------------- the measure

  const ATTEMPTS_CAP: nat := 10

  /** What the attempts after the given one can still cost. */
  function Later(attempt: int): nat {
    if attempt < ATTEMPTS_CAP then 10 * (ATTEMPTS_CAP - attempt) else 0
  }

  function PhaseWeight(p: Phase, attempt: int): nat {
    match p
    case Fetched => Later(attempt) + 5
    case Claimed => Later(attempt) + 4
    case Recorded => Later(attempt) + 3
    case RetryPending => if attempt < ATTEMPTS_CAP then Later(attempt) - 2 else 0
    case Cascading => 2
    case _ => 1
  }

  function Weight(cursor: nat, workers: map<nat, Phase>, m: Message, e: nat): nat {
    if e >= cursor then Later(m.attempt) + 6
    else if e in workers then PhaseWeight(workers[e], m.attempt)
    else 0
  }

  ghost function Entries(stream: seq<Message>, cursor: nat, workers: map<nat, Phase>, n: nat): nat
    requires n <= |stream|
  {
    if n == 0 then 0
    else Entries(stream, cursor, workers, n - 1) + Weight(cursor, workers, stream[n - 1], n - 1)
  }

  ghost function Unsent(tasks: Tasks): set<TaskId> {
    set t | t in tasks && tasks[t].state.Queued? && !tasks[t].dispatched
  }

  ghost function Unclosed(scans: map<ScanId, ScanStatus>): set<ScanId> {
    set scan | scan in scans && scans[scan].Active?
  }

  /** An unsent task outweighs its first message, a first message every later phase. */
  const ROW_WEIGHT: nat := 97

  ghost function Measure(s: State): nat {
    Entries(s.stream, s.cursor, s.workers, |s.stream|) + ROW_WEIGHT * |Unsent(s.tasks)| + |Unclosed(s.scans)|
  }

  // -------------------------------------------------------------- entries

  /** When one entry changes, so does the sum. */
  lemma {:induction false} OneChanges(stream: seq<Message>, c: nat, w: map<nat, Phase>,
                                      stream': seq<Message>, c': nat, w': map<nat, Phase>, n: nat, e: nat)
    requires n <= |stream| && n <= |stream'| && e < n
    requires forall f: nat | f < n && f != e :: Weight(c', w', stream'[f], f) == Weight(c, w, stream[f], f)
    ensures Entries(stream', c', w', n) + Weight(c, w, stream[e], e) ==
            Entries(stream, c, w, n) + Weight(c', w', stream'[e], e)
  {
    if e < n - 1 {
      OneChanges(stream, c, w, stream', c', w', n - 1, e);
    } else {
      NoneChanges(stream, c, w, stream', c', w', n - 1);
    }
  }

  lemma {:induction false} NoneChanges(stream: seq<Message>, c: nat, w: map<nat, Phase>,
                                       stream': seq<Message>, c': nat, w': map<nat, Phase>, n: nat)
    requires n <= |stream| && n <= |stream'|
    requires forall f: nat | f < n :: Weight(c', w', stream'[f], f) == Weight(c, w, stream[f], f)
    ensures Entries(stream', c', w', n) == Entries(stream, c, w, n)
  {
    if n > 0 {
      NoneChanges(stream, c, w, stream', c', w', n - 1);
    }
  }

  /** First messages cost 96 each while they wait. */
  lemma {:induction false} FirstMessagesCost(stream: seq<Message>, c: nat, w: map<nat, Phase>, sent: seq<Message>, k: nat)
    requires c <= |stream| && k <= |sent| && forall m | m in sent :: m.attempt == 1
    ensures Entries(stream + sent, c, w, |stream| + k) == Entries(stream, c, w, |stream|) + (ROW_WEIGHT - 1) * k
  {
    if k == 0 {
      NoneChanges(stream, c, w, stream + sent, c, w, |stream|);
    } else {
      FirstMessagesCost(stream, c, w, sent, k - 1);
      assert (stream + sent)[|stream| + k - 1] == sent[k - 1];
    }
  }

  // --------------------------------------------------------- worker steps

  /** The one entry whose handler acts. */
  ghost function Acting(s: State, a: Action): nat
    requires Enabled(s, a) && WorkerAction(a)
  {
    if a.Deliver? then s.cursor else a.e
  }

  ghost predicate AttemptsCapped(s: State) {
    forall e: nat | e < |s.stream| ::
      && s.stream[e].attempt <= ATTEMPTS_CAP
      && (e in s.workers && s.workers[e].RetryPending? ==> s.stream[e].attempt < ATTEMPTS_CAP)
  }

  lemma PlannedLimits(s: State)
    requires RowsPlanned(s.tasks, s.plans) && PlansOk(s.plans)
    ensures forall t | t in s.tasks :: s.tasks[t].maxAttempts <= ATTEMPTS_CAP
  {
    forall t | t in s.tasks ensures s.tasks[t].maxAttempts <= ATTEMPTS_CAP {
      var p :| p in s.plans[t.scan] && p.id == t && Agrees(s.tasks[t], p);
      assert PlanShape(t.scan, s.plans[t.scan]);
    }
  }

  lemma CapsHold(s: State)
    requires RowsFit(s.tasks, s.stream, s.cursor, s.workers)
    requires forall t | t in s.tasks :: s.tasks[t].maxAttempts <= ATTEMPTS_CAP
    ensures AttemptsCapped(s)
  {
  }

  /** A handler's entry gets lighter. */
  lemma EntryDrops(s: State, a: Action)
    requires Enabled(s, a) && WorkerAction(a) && !a.Stop? && !a.Resend? && s.cursor <= |s.stream|
    requires forall f | f in s.workers :: f < s.cursor
    ensures var s', e := ApplyWorker(s, a), Acting(s, a);
            && s'.stream == s.stream && e < |s.stream|
            && Weight(s'.cursor, s'.workers, s.stream[e], e) < Weight(s.cursor, s.workers, s.stream[e], e)
            && forall f: nat | f != e && f < |s.stream| ::
                 Weight(s'.cursor, s'.workers, s.stream[f], f) == Weight(s.cursor, s.workers, s.stream[f], f)
  {
  }

  lemma EntriesDrop(s: State, a: Action)
    requires Enabled(s, a) && WorkerAction(a) && !a.Stop? && s.cursor <= |s.stream|
    requires AttemptsCapped(s) && forall f | f in s.workers :: f < s.cursor
    ensures var s' := ApplyWorker(s, a);
            Entries(s'.stream, s'.cursor, s'.workers, |s'.stream|) < Entries(s.stream, s.cursor, s.workers, |s.stream|)
  {
    if a.Resend? {
      ResendDrops(s, a.e);
    } else {
      EntryDrops(s, a);
      var s' := ApplyWorker(s, a);
      OneChanges(s.stream, s.cursor, s.workers, s'.stream, s'.cursor, s'.workers, |s.stream|, Acting(s, a));
    }
  }

  /** A redelivery is lighter than what its old delivery could still cost. */
  lemma ResendDrops(s: State, e: nat)
    requires Enabled(s, Resend(e)) && s.cursor <= |s.stream| && e < s.cursor
    requires s.stream[e].attempt < ATTEMPTS_CAP
    ensures var s' := ApplyWorker(s, Resend(e));
            Entries(s'.stream, s'.cursor, s'.workers, |s'.stream|) < Entries(s.stream, s.cursor, s.workers, |s.stream|)
  {
    var s' := ApplyWorker(s, Resend(e));
    OneChanges(s.stream, s.cursor, s.workers, s'.stream, s'.cursor, s'.workers, |s.stream|, e);
    assert s'.stream[|s.stream|].attempt == s.stream[e].attempt + 1;
  }

  lemma FewerUnsent(s: State, a: Action)
    requires FlowOf(s) && Possible(s, Work(a))
    ensures |Unsent(ApplyWorker(s, a).tasks)| <= |Unsent(s.tasks)|
  {
    var s' := ApplyWorker(s, a);
    assert Unsent(s'.tasks) <= Unsent(s.tasks) by {
      if a.Cascade? {
        CascadeAborts(s.tasks, s.stream[a.e].task.scan, s.stream[a.e].task.step);
        AbortedNotUnsent(s.tasks, s'.tasks);
      } else if !a.Deliver? && s.stream[a.e].task in s.tasks {
        assert s.tasks[s.stream[a.e].task].dispatched;
        OneRowUnsent(s, a);
      }
    }
    SubsetSize(Unsent(s'.tasks), Unsent(s.tasks));
  }

  lemma AbortedNotUnsent(tasks: Tasks, after: Tasks)
    requires OnlyAborts(tasks, after)
    ensures Unsent(after) <= Unsent(tasks)
  {
  }

  lemma OneRowUnsent(s: State, a: Action)
    requires Enabled(s, a) && WorkerAction(a) && !a.Deliver? && !a.Cascade? && a.e < |s.stream|
    requires s.stream[a.e].task in s.tasks && s.tasks[s.stream[a.e].task].dispatched
    ensures Unsent(ApplyWorker(s, a).tasks) <= Unsent(s.tasks)
  {
  }

  lemma {:induction false} SubsetSize<T>(small: set<T>, large: set<T>)
    requires small <= large
    ensures |small| <= |large|
  {
    if small != {} {
      var x :| x in small;
      SubsetSize(small - {x}, large - {x});
    }
  }

  lemma WorkDescends(s: State, a: Action)
    requires FlowOf(s) && AttemptsCapped(s) && Possible(s, Work(a))
    ensures Measure(ApplyWorker(s, a)) < Measure(s)
  {
    EntriesDrop(s, a);
    FewerUnsent(s, a);
  }

  // --------------------------------------------------------- master moves

  lemma {:induction false} DistinctSize<T>(s: seq<T>)
    requires Distinct(s)
    ensures |set x | x in s| == |s|
  {
    if s != [] {
      var init, last := s[..|s| - 1], s[|s| - 1];
      DistinctSize(init);
      assert (set x | x in s) == (set x | x in init) + {last};
      assert last !in init;
    }
  }

  lemma SentNoLonger(s: State, batch: seq<TaskId>)
    requires ReadyBatch(s, batch)
    ensures |Unsent(MarkRows(s.tasks, batch))| == |Unsent(s.tasks)| - |batch|
  {
    var sent := set t | t in batch;
    DistinctSize(batch);
    assert forall t | t in batch :: Ready(s, t);
    assert Unsent(MarkRows(s.tasks, batch)) == Unsent(s.tasks) - sent && sent <= Unsent(s.tasks);
  }

  lemma DispatchDescends(s: State, batch: seq<TaskId>)
    requires s.cursor <= |s.stream| && Possible(s, Dispatch(batch))
    ensures Measure(Moved(s, Dispatch(batch))) < Measure(s)
  {
    FirstMessagesCost(s.stream, s.cursor, s.workers, FirstMessages(batch), |batch|);
    SentNoLonger(s, batch);
  }

  lemma CloseDescends(s: State, scan: ScanId)
    requires Possible(s, CloseScan(scan))
    ensures Measure(Moved(s, CloseScan(scan))) < Measure(s)
  {
    assert Unclosed(Moved(s, CloseScan(scan)).scans) == Unclosed(s.scans) - {scan};
  }

  /** Termination: every move of a clean run but a submission lowers the measure. */
  lemma MoveDescends(s: State, m: Move)
    requires CleanInv(s) && Possible(s, m) && !m.Submit?
    ensures Measure(Moved(s, m)) < Measure(s)
  {
    match m {
      case Dispatch(batch) => DispatchDescends(s, batch);
      case CloseScan(scan) => CloseDescends(s, scan);
      case Work(a) =>
        PlannedLimits(s);
        CapsHold(s);
        WorkDescends(s, a);
    }
  }

  // ---------------------------------------------------------- submissions

  lemma {:induction false} RowsCost(tasks: Tasks, plan: seq<Planned>)
    ensures |Unsent(AddRows(tasks, plan))| + |RootMessages(plan)| <= |Unsent(tasks)| + |plan|
  {
    if plan != [] {
      var init, last := plan[..|plan| - 1], plan[|plan| - 1];
      RowsCost(tasks, init);
      var before, after := Unsent(AddRows(tasks, init)), Unsent(AddRows(tasks, plan));
      if last.deps == [] {
        assert after <= before;
        SubsetSize(after, before);
      } else {
        assert after <= before + {last.id};
        SubsetSize(after, before + {last.id});
      }
    }
  }

  lemma RootsCost(stream: seq<Message>, c: nat, w: map<nat, Phase>, plan: seq<Planned>)
    requires c <= |stream| && DistinctKeys(plan)
    ensures Entries(stream + RootMessages(plan), c, w, |stream + RootMessages(plan)|) ==
            Entries(stream, c, w, |stream|) + (ROW_WEIGHT - 1) * |RootMessages(plan)|
  {
    RootMessagesAre(plan);
    FirstMessagesCost(stream, c, w, RootMessages(plan), |RootMessages(plan)|);
  }

  lemma OneMoreScan(scans: map<ScanId, ScanStatus>, scan: ScanId)
    ensures |Unclosed(scans[scan := Active])| <= |Unclosed(scans)| + 1
  {
    assert Unclosed(scans[scan := Active]) == Unclosed(scans) + {scan};
  }

  lemma SubmitCost(s: State, scan: ScanId, plan: seq<Planned>)
    requires s.cursor <= |s.stream| && Possible(s, Submit(scan, plan))
    ensures Measure(Moved(s, Submit(scan, plan))) <= Measure(s) + ROW_WEIGHT * |plan| + 1
  {
    RowsCost(s.tasks, plan);
    RootsCost(s.stream, s.cursor, s.workers, plan);
    OneMoreScan(s.scans, scan);
    SubmittedMeasure(s, scan, plan);
  }

  lemma SubmittedMeasure(s: State, scan: ScanId, plan: seq<Planned>)
    requires Possible(s, Submit(scan, plan))
    ensures Measure(Moved(s, Submit(scan, plan))) ==
            Entries(s.stream + RootMessages(plan), s.cursor, s.workers, |s.stream + RootMessages(plan)|) +
            ROW_WEIGHT * |Unsent(AddRows(s.tasks, plan))| + |Unclosed(s.scans[scan := Active])|
  {
  }

  // ------------------------------------------------------------ whole runs

  ghost function Submitted(moves: seq<Move>): nat {
    if moves == [] then 0
    else
      var last := moves[|moves| - 1];
      Submitted(moves[..|moves| - 1]) + if last.Submit? then ROW_WEIGHT * |last.plan| + 1 else 0
  }

  ghost function OtherMoves(moves: seq<Move>): nat {
    if moves == [] then 0
    else OtherMoves(moves[..|moves| - 1]) + if moves[|moves| - 1].Submit? then 0 else 1
  }

  lemma MeasureAt(states: seq<State>, moves: seq<Move>, k: nat)
    requires IsCleanRun(states, moves) && k < |moves|
    ensures if moves[k].Submit? then Measure(states[k + 1]) <= Measure(states[k]) + ROW_WEIGHT * |moves[k].plan| + 1
            else Measure(states[k + 1]) < Measure(states[k])
  {
    CleanRunStep(states, moves, k);
    if moves[k].Submit? {
      SubmitCost(states[k], moves[k].scan, moves[k].plan);
    } else {
      MoveDescends(states[k], moves[k]);
    }
  }

  lemma {:induction false} MeasureRun(states: seq<State>, moves: seq<Move>, n: nat)
    requires IsCleanRun(states, moves) && n <= |moves|
    ensures Measure(states[n]) + OtherMoves(moves[..n]) <= Submitted(moves[..n])
  {
    if n == 0 {
      assert Unclosed(states[0].scans) == {} && Unsent(states[0].tasks) == {};
    } else {
      MeasureRun(states, moves, n - 1);
      MeasureAt(states, moves, n - 1);
      assert moves[..n][..n - 1] == moves[..n - 1];
    }
  }

  /** The work of a clean run is bounded by what was submitted. */
  lemma WorkIsBounded(states: seq<State>, moves: seq<Move>)
    requires IsCleanRun(states, moves)
    ensures OtherMoves(moves) <= Submitted(moves)
  {
    MeasureRun(states, moves, |moves|);
    assert moves[..|moves|] == moves;
  }

  // -------------------------------------------------------------- progress

  ghost predicate AtRest(s: State) {
    Quiescent(s) && forall scan :: !Closable(s, scan)
  }

  lemma {:induction false} BatchFrom(left: set<TaskId>, limit: nat) returns (batch: seq<TaskId>)
    ensures Distinct(batch) && |batch| <= limit && forall t | t in batch :: t in left
    ensures |batch| < limit ==> forall t | t in left :: t in batch
    ensures left != {} && limit > 0 ==> batch != []
  {
    batch := [];
    if left != {} && limit > 0 {
      var t :| t in left;
      var rest := BatchFrom(left - {t}, limit - 1);
      batch := [t] + rest;
    }
  }

  lemma ReadyCanGo(s: State, t: TaskId) returns (batch: seq<TaskId>)
    requires Ready(s, t)
    ensures Possible(s, Dispatch(batch)) && t in batch
  {
    var ready := set x | x in s.tasks && Ready(s, x);
    assert t in ready;
    var rest := BatchFrom(ready - {t}, READY_LIMIT - 1);
    batch := [t] + rest;
    forall x | Ready(s, x) ensures x in ready {
    }
    forall x | x in batch ensures Ready(s, x) {
      assert x in ready;
    }
    assert ReadyBatch(s, batch);
  }

  lemma HandlerCanGo(s: State, e: nat) returns (a: Action)
    requires FlowOf(s) && e in s.workers
    ensures Possible(s, Work(a))
  {
    a := match s.workers[e]
      case Fetched => TryClaim(e)
      case Claimed => Conclude(e, OutOfScope)
      case Recorded => Conclude(e, Completed)
      case RetryPending => Resend(e)
      case Cascading => Cascade(e)
      case _ => Ack(e);
    assert e < |s.stream| && s.stream[e].task in s.tasks;
  }

  /** A clean run that is not at rest can move without a submission. */
  lemma NotAtRestMoves(s: State) returns (m: Move)
    requires FlowOf(s) && !AtRest(s)
    ensures Possible(s, m) && !m.Submit?
  {
    if s.cursor < |s.stream| {
      m := Work(Deliver);
    } else if e :| e in s.workers {
      var a := HandlerCanGo(s, e);
      m := Work(a);
    } else if t :| Ready(s, t) {
      var batch := ReadyCanGo(s, t);
      m := Dispatch(batch);
    } else {
      assert s.pel == {};
      var scan :| Closable(s, scan);
      m := CloseScan(scan);
    }
  }

  lemma ExtendRun(states: seq<State>, moves: seq<Move>, m: Move)
    requires IsCleanRun(states, moves) && Possible(states[|moves|], m)
    ensures IsCleanRun(states + [Moved(states[|moves|], m)], moves + [m])
  {
    var states', moves' := states + [Moved(states[|moves|], m)], moves + [m];
    forall i: nat | i < |moves'| ensures MoveAt(states', moves', i) {
      assert i < |moves| ==> MoveAt(states, moves, i);
    }
  }

  lemma OneMoveDown(states: seq<State>, moves: seq<Move>) returns (m: Move, s': State)
    requires IsCleanRun(states, moves) && !AtRest(states[|moves|])
    ensures IsCleanRun(states + [s'], moves + [m]) && !m.Submit?
    ensures Measure(s') < Measure(states[|moves|])
  {
    var s := states[|moves|];
    CleanRunInv(states, moves, |moves|);
    m := NotAtRestMoves(s);
    s' := Moved(s, m);
    MoveDescends(s, m);
    ExtendRun(states, moves, m);
  }

  /** Every clean run can be run down to rest, without further submissions. */
  lemma {:induction false} RunsDown(states: seq<State>, moves: seq<Move>) returns (states': seq<State>, more: seq<Move>)
    requires IsCleanRun(states, moves)
    ensures IsCleanRun(states', moves + more) && forall m | m in more :: !m.Submit?
    ensures AtRest(states'[|moves + more|])
    decreases Measure(states[|moves|])
  {
    if AtRest(states[|moves|]) {
      states', more := states, [];
      assert moves + more == moves;
    } else {
      var m, s' := OneMoveDown(states, moves);
      var rest: seq<Move>;
      states', rest := RunsDown(states + [s'], moves + [m]);
      more := [m] + rest;
      assert moves + more == moves + [m] + rest;
    }
  }

  /** At rest a scan is closed, or one of its tasks is blocked by a gate or a refusal. */
  lemma RestClosesScans(states: seq<State>, moves: seq<Move>, scan: ScanId) returns (t: TaskId, x: TaskId)
    requires IsCleanRun(states, moves) && AtRest(states[|moves|]) && scan in states[|moves|].scans
    ensures states[|moves|].scans[scan].Active? ==>
              && t in states[|moves|].tasks && t.scan == scan && !states[|moves|].tasks[t].dispatched
              && Blocks(states[|moves|], x, t)
  {
    var s := states[|moves|];
    if s.scans[scan].Active? {
      assert !Closable(s, scan);
      t :| t in s.tasks && t.scan == scan && !s.tasks[t].state.Terminal();
      x := NoHanging(states, moves, |moves|, t);
    } else {
      t :| true;
      x := t;
    }
  }
}
