/** What the logs of the coroutines mean: what has happened by the time a delivery is
    acknowledged, a round of the dispatcher or of the closing loop is over. */
module Logs {
  import opened Prelude
  import opened Graph
  import opened Planner
  import opened Lifecycle
  import opened Runs
  import opened Traces
  import Carriers
  import Handler
  import Master
  import Maintenance

  // -------------------------------------------------- own steps in a trace

  /** Own step k is taken somewhere, after the own steps before it and no others. */
  lemma {:induction false} OwnAt(mine: Coroutine, trace: seq<Action>, k: nat) returns (i: nat)
    requires k < |OwnSteps(mine, trace)|
    ensures i < |trace| && trace[i] == OwnSteps(mine, trace)[k]
    ensures OwnSteps(mine, trace[..i]) == OwnSteps(mine, trace)[..k]
  {
    var n := |trace| - 1;
    var before := OwnSteps(mine, trace[..n]);
    if k < |before| {
      i := OwnAt(mine, trace[..n], k);
      assert trace[..n][..i] == trace[..i];
    } else {
      i := n;
    }
  }

  lemma {:induction false} OwnGrows(mine: Coroutine, trace: seq<Action>, i: nat, j: nat)
    requires i <= j <= |trace|
    ensures OwnSteps(mine, trace[..i]) <= OwnSteps(mine, trace[..j])
    decreases j
  {
    if i < j {
      OwnGrows(mine, trace, i, j - 1);
      assert trace[..j][..j - 1] == trace[..j - 1];
    }
  }

  lemma OwnNext(mine: Coroutine, trace: seq<Action>, n: nat)
    requires n < |trace|
    ensures OwnSteps(mine, trace[..n + 1]) == OwnSteps(mine, trace[..n]) + if mine(trace[n]) then [trace[n]] else []
  {
    assert trace[..n + 1][..n] == trace[..n];
  }

  lemma LastOf<T>(a: seq<T>, x: T, b: seq<T>, y: T)
    requires a + [x] == b + [y]
    ensures a == b && x == y
  {
    assert (a + [x])[|a|] == x && (b + [y])[|b|] == y;
    assert (a + [x])[..|a|] == a && (b + [y])[..|b|] == b;
  }

  /** Own steps come in the order in which they are listed. */
  lemma OwnInOrder(mine: Coroutine, trace: seq<Action>, k: nat, m: nat) returns (i: nat, j: nat)
    requires k < m < |OwnSteps(mine, trace)|
    ensures i < j < |trace| && trace[i] == OwnSteps(mine, trace)[k] && trace[j] == OwnSteps(mine, trace)[m]
  {
    i := OwnAt(mine, trace, k);
    j := OwnAt(mine, trace, m);
    if j <= i {
      OwnGrows(mine, trace, j, i);
    }
  }

  lemma {:induction false} OwnListed(mine: Coroutine, trace: seq<Action>, i: nat)
    requires i < |trace| && mine(trace[i])
    ensures trace[i] in OwnSteps(mine, trace)
  {
    var n := |trace| - 1;
    if i < n {
      OwnListed(mine, trace[..n], i);
    }
  }

  // -------------------------------------------------------------- runs

  /** A run that goes on by a log. */
  lemma LogIsRun(states: seq<State>, acts: seq<Action>, log: Log, mine: Coroutine, now: State)
    requires IsRun(states, acts) && Logged(log, mine, now) && log.states[0] == states[|acts|]
    ensures IsRun(states + log.states[1..], acts + log.trace)
    ensures forall k | 0 <= k <= |log.trace| :: (states + log.states[1..])[|acts| + k] == log.states[k]
  {
    PathAppend(states, acts, log.states, log.trace);
  }

  // -------------------------------------------------------------- handlers

  /** The handler's steps are those of a script. */
  ghost predicate Scripted(own: seq<Action>, e: nat, claimed: Option<int>, attempt: int, w: Handler.World, starved: bool) {
    own == Handler.Script(e, claimed, attempt, w, starved)
  }

  lemma StepAtLog(log: Log, mine: Coroutine, now: State, i: nat)
    requires Logged(log, mine, now) && i < |log.trace|
    ensures Next(log.states[i], log.trace[i], log.states[i + 1])
  {
    RunStep(log.states, log.trace, i);
  }

  lemma ResendAppends(s: State, e: nat, s': State)
    requires QueueOk(|s.stream|, s.cursor, s.pel, s.workers, s.claims) && Next(s, Resend(e), s')
    ensures e < |s.stream| && s'.stream == s.stream + [Message(s.stream[e].task, s.stream[e].attempt + 1)]
  {
  }

  lemma ResendSends(s: State, e: nat, s': State)
    requires QueueOk(|s.stream|, s.cursor, s.pel, s.workers, s.claims) && Next(s, Resend(e), s')
    ensures Maintenance.SentAgain(s', e)
  {
    ResendAppends(s, e, s');
    assert s'.stream[|s.stream|] == Message(s'.stream[e].task, s'.stream[e].attempt + 1);
  }

  /** Whatever the others do in between, in every log of a handler that retries, the
      redelivery is sent before the ACK and stands in the stream from then on. */
  lemma RedeliveredBeforeAck(log: Log, now: State, e: nat, claimed: Option<int>, attempt: int, w: Handler.World, starved: bool)
    returns (i: nat, j: nat)
    requires Logged(log, Handler.HandlerOf(e), now) && Scripted(log.own, e, claimed, attempt, w, starved)
    requires Retry(e) in log.own
    ensures i < j < |log.trace| && log.trace[i] == Resend(e) && log.trace[j] == Ack(e)
    ensures forall k | i < k <= |log.trace| :: Maintenance.SentAgain(log.states[k], e)
  {
    RetryScript(log.own, e, claimed, attempt, w, starved);
    i, j := OwnInOrder(Handler.HandlerOf(e), log.trace, 2, 3);
    SentAgainFrom(log, now, e, i);
  }

  lemma RetryScript(own: seq<Action>, e: nat, claimed: Option<int>, attempt: int, w: Handler.World, starved: bool)
    requires Scripted(own, e, claimed, attempt, w, starved) && Retry(e) in own
    ensures own == [TryClaim(e), Retry(e), Resend(e), Ack(e)]
  {
  }

  lemma SentAgainFrom(log: Log, now: State, e: nat, i: nat)
    requires Logged(log, Handler.HandlerOf(e), now) && i < |log.trace| && log.trace[i] == Resend(e)
    ensures forall k | i < k <= |log.trace| :: Maintenance.SentAgain(log.states[k], e)
  {
    StepAtLog(log, Handler.HandlerOf(e), now, i);
    QueueAt(log, Handler.HandlerOf(e), now, i);
    ResendSends(log.states[i], e, log.states[i + 1]);
    forall k | i < k <= |log.trace| ensures Maintenance.SentAgain(log.states[k], e) {
      GrowsRun(log.states, log.trace, i + 1, k);
      Maintenance.SentAgainStays(log.states[i + 1], log.states[k], e);
    }
  }

  lemma QueueAt(log: Log, mine: Coroutine, now: State, i: nat)
    requires Logged(log, mine, now) && i <= |log.trace|
    ensures var s := log.states[i]; QueueOk(|s.stream|, s.cursor, s.pel, s.workers, s.claims)
  {
    BasicPath(log.states, log.trace, i);
  }

  lemma {:induction false} OwnSomewhere(mine: Coroutine, trace: seq<Action>, a: Action) returns (i: nat)
    requires a in OwnSteps(mine, trace)
    ensures i < |trace| && trace[i] == a
  {
    var k :| 0 <= k < |OwnSteps(mine, trace)| && OwnSteps(mine, trace)[k] == a;
    i := OwnAt(mine, trace, k);
  }

  /** The state that goes with each stored outcome. */
  ghost predicate StoredAs(row: Row, v: Verdict) {
    && row.result == Some(v)
    && (v.OutOfScope? ==> row.state == Failed)
    && (v.NotPermitted? || v.BadParameters? || v.Exhausted? ==> row.state == Dead)
    && (v.Completed? ==> row.state == Succeeded)
  }

  /** Each outcome among a handler's steps is stored in its row. */
  lemma OutcomeStored(log: Log, now: State, e: nat, v: Verdict) returns (i: nat)
    requires Logged(log, Handler.HandlerOf(e), now) && Conclude(e, v) in log.own
    ensures i < |log.trace| && log.trace[i] == Conclude(e, v) && e < |log.states[i].stream|
    ensures log.states[i].stream[e].task in log.states[i + 1].tasks
    ensures StoredAs(log.states[i + 1].tasks[log.states[i].stream[e].task], v)
  {
    i := OwnSomewhere(Handler.HandlerOf(e), log.trace, Conclude(e, v));
    StepAtLog(log, Handler.HandlerOf(e), now, i);
    ConcludeStores(log.states[i], e, v, log.states[i + 1]);
  }

  /** The findings of a run are stored, and stay. */
  lemma FindingsStored(log: Log, now: State, e: nat, types: set<string>, ty: string) returns (i: nat)
    requires Logged(log, Handler.HandlerOf(e), now) && Record(e, types) in log.own && ty in types
    ensures i < |log.trace| && log.trace[i] == Record(e, types) && e < |log.states[i].stream|
    ensures (log.states[i].stream[e].task.scan, ty) in now.findings
  {
    i := OwnSomewhere(Handler.HandlerOf(e), log.trace, Record(e, types));
    StepAtLog(log, Handler.HandlerOf(e), now, i);
    RecordStores(log.states[i], e, types, log.states[i + 1]);
    GrowsRun(log.states, log.trace, i + 1, |log.trace|);
  }

  lemma RecordStores(s: State, e: nat, types: set<string>, s': State)
    requires Next(s, Record(e, types), s')
    ensures e < |s.stream| && forall ty | ty in types :: (s.stream[e].task.scan, ty) in s'.findings
    ensures forall f | f in s'.findings :: f in s.findings || (f.0 == s.stream[e].task.scan && f.1 in types)
  {
  }

  /** A retry sets the row back to queued. */
  lemma RetryRequeues(log: Log, now: State, e: nat) returns (i: nat)
    requires Logged(log, Handler.HandlerOf(e), now) && Retry(e) in log.own
    ensures i < |log.trace| && log.trace[i] == Retry(e) && e < |log.states[i].stream|
    ensures log.states[i].stream[e].task in log.states[i + 1].tasks
    ensures log.states[i + 1].tasks[log.states[i].stream[e].task].state == Queued
  {
    i := OwnSomewhere(Handler.HandlerOf(e), log.trace, Retry(e));
    StepAtLog(log, Handler.HandlerOf(e), now, i);
  }

  /** No queued row of the scan has the failed step or depends on it. */
  ghost predicate NoneQueued(s: State, t: TaskId) {
    forall y | y in s.tasks && y.scan == t.scan && Hit(RowEdges(s.tasks, t.scan), t.step, y.step) ::
      !s.tasks[y].state.Queued?
  }

  lemma CascadeAborts(s: State, e: nat, s': State)
    requires Next(s, Cascade(e), s')
    ensures e < |s.stream| && NoneQueued(s', s.stream[e].task)
  {
    var t := s.stream[e].task;
    assert RowEdges(s'.tasks, t.scan) == RowEdges(s.tasks, t.scan);
  }

  lemma ConcludeStores(s: State, e: nat, v: Verdict, s': State)
    requires Next(s, Conclude(e, v), s')
    ensures e < |s.stream| && s.stream[e].task in s'.tasks
    ensures s'.tasks[s.stream[e].task].state == v.State() && s'.tasks[s.stream[e].task].result == Some(v)
  {
  }

  /** In every log of a handler that fails its task for good, the outcome is stored
      first, then a state is left in which nothing at or below the failed step is
      queued, and only then the delivery is acknowledged. */
  lemma FailedThenAborted(log: Log, now: State, e: nat, claimed: Option<int>, attempt: int, w: Handler.World, starved: bool, v: Verdict)
    returns (i: nat, c: nat, j: nat)
    requires Logged(log, Handler.HandlerOf(e), now) && Scripted(log.own, e, claimed, attempt, w, starved)
    requires Conclude(e, v) in log.own && v.Cascades()
    ensures i < c < j < |log.trace| && log.trace[i] == Conclude(e, v) && log.trace[j] == Ack(e)
    ensures e < |log.states[i].stream|
    ensures var t := log.states[i].stream[e].task;
            t in log.states[i + 1].tasks && log.states[i + 1].tasks[t].state == v.State() && NoneQueued(log.states[c + 1], t)
  {
    FailScript(log.own, e, claimed, attempt, w, starved, v);
    i := OwnAt(Handler.HandlerOf(e), log.trace, 1);
    c := OwnAt(Handler.HandlerOf(e), log.trace, 2);
    j := OwnAt(Handler.HandlerOf(e), log.trace, 3);
    OwnSpread(Handler.HandlerOf(e), log.trace, i, c, 1, 2);
    OwnSpread(Handler.HandlerOf(e), log.trace, c, j, 2, 3);
    OutcomeAndCascade(log, now, e, v, i, c);
  }

  lemma FailScript(own: seq<Action>, e: nat, claimed: Option<int>, attempt: int, w: Handler.World, starved: bool, v: Verdict)
    requires Scripted(own, e, claimed, attempt, w, starved) && Conclude(e, v) in own && v.Cascades()
    ensures own == [TryClaim(e), Conclude(e, v), Cascade(e), Ack(e)]
  {
  }

  lemma OutcomeAndCascade(log: Log, now: State, e: nat, v: Verdict, i: nat, c: nat)
    requires Logged(log, Handler.HandlerOf(e), now) && i < c < |log.trace|
    requires log.trace[i] == Conclude(e, v) && log.trace[c] == Cascade(e)
    ensures e < |log.states[i].stream|
    ensures var t := log.states[i].stream[e].task;
            t in log.states[i + 1].tasks && log.states[i + 1].tasks[t].state == v.State() && NoneQueued(log.states[c + 1], t)
  {
    StepAtLog(log, Handler.HandlerOf(e), now, i);
    StepAtLog(log, Handler.HandlerOf(e), now, c);
    ConcludeStores(log.states[i], e, v, log.states[i + 1]);
    CascadeAborts(log.states[c], e, log.states[c + 1]);
    GrowsRun(log.states, log.trace, i, c);
  }

  lemma OwnSpread(mine: Coroutine, trace: seq<Action>, i: nat, j: nat, k: nat, m: nat)
    requires i <= |trace| && j <= |trace| && k < m <= |OwnSteps(mine, trace)|
    requires OwnSteps(mine, trace[..i]) == OwnSteps(mine, trace)[..k]
    requires OwnSteps(mine, trace[..j]) == OwnSteps(mine, trace)[..m]
    ensures i < j
  {
    if j <= i {
      OwnGrows(mine, trace, j, i);
    }
  }

  /** A handler that runs to its ACK loses no task: at every state of its log the task is
      carried while it is unfinished, unless some other handler of it was orphaned as its last carrier. */
  lemma HandledStaysCarried(states: seq<State>, acts: seq<Action>, log: Log, now: State, e: nat,
                            claimed: Option<int>, attempt: int, w: Handler.World, starved: bool, k: nat, t: TaskId)
    requires IsRun(states, acts) && Logged(log, Handler.HandlerOf(e), now) && log.states[0] == states[|acts|]
    requires Scripted(log.own, e, claimed, attempt, w, starved) && Stop(e) !in log.own && k <= |log.trace|
    requires t in log.states[k].tasks && log.states[k].tasks[t].dispatched && !log.states[k].tasks[t].state.Terminal()
    requires forall i | 0 <= i < |acts| :: !Carriers.LosesLast(states[i], acts[i], t)
    ensures Carriers.Carried(log.states[k], t) ||
            exists i | 0 <= i < k :: !Handler.HandlerOf(e)(log.trace[i]) &&
                                     Carriers.LosesLast(log.states[i], log.trace[i], t)
  {
    if !Carriers.Carried(log.states[k], t) {
      var i := LostSomewhere(states, acts, log, now, Handler.HandlerOf(e), k, t);
      LostInLog(states, acts, log, i, t);
      OwnNeverLoses(log, e, i - |acts|, t);
    }
  }

  /** An uncarried task has lost its last carrier in the run or in the log. */
  lemma LostSomewhere(states: seq<State>, acts: seq<Action>, log: Log, now: State, mine: Coroutine, k: nat, t: TaskId)
    returns (i: nat)
    requires IsRun(states, acts) && Logged(log, mine, now) && log.states[0] == states[|acts|] && k <= |log.trace|
    requires t in log.states[k].tasks && log.states[k].tasks[t].dispatched && !log.states[k].tasks[t].state.Terminal()
    requires !Carriers.Carried(log.states[k], t)
    ensures i < |acts| + k && Carriers.LosesLast((states + log.states[1..])[i], (acts + log.trace)[i], t)
  {
    LogIsRun(states, acts, log, mine, now);
    Carriers.NoLostTask(states + log.states[1..], acts + log.trace, |acts| + k, t);
    i :| i < |acts| + k && Carriers.LosesLast((states + log.states[1..])[i], (acts + log.trace)[i], t);
  }

  /** A carrier lost in the run and its log together, but not in the run, is lost in the log. */
  lemma LostInLog(states: seq<State>, acts: seq<Action>, log: Log, i: nat, t: TaskId)
    requires |states| == |acts| + 1 && |log.states| == |log.trace| + 1 && log.states[0] == states[|acts|]
    requires i < |acts| + |log.trace| && Carriers.LosesLast((states + log.states[1..])[i], (acts + log.trace)[i], t)
    requires forall j | 0 <= j < |acts| :: !Carriers.LosesLast(states[j], acts[j], t)
    ensures i >= |acts| && Carriers.LosesLast(log.states[i - |acts|], log.trace[i - |acts|], t)
  {
    JoinedAt(states, acts, log, i);
  }

  lemma JoinedAt(states: seq<State>, acts: seq<Action>, log: Log, i: nat)
    requires |states| == |acts| + 1 && |log.states| == |log.trace| + 1 && log.states[0] == states[|acts|]
    requires i < |acts| + |log.trace|
    ensures i < |acts| ==> (states + log.states[1..])[i] == states[i] && (acts + log.trace)[i] == acts[i]
    ensures i >= |acts| ==>
              (states + log.states[1..])[i] == log.states[i - |acts|] && (acts + log.trace)[i] == log.trace[i - |acts|]
  {
  }

  lemma OwnNeverLoses(log: Log, e: nat, n: nat, t: TaskId)
    requires n < |log.trace| < |log.states| && Stop(e) !in OwnSteps(Handler.HandlerOf(e), log.trace)
    ensures Handler.HandlerOf(e)(log.trace[n]) ==> !Carriers.LosesLast(log.states[n], log.trace[n], t)
  {
    if Handler.HandlerOf(e)(log.trace[n]) {
      OwnListed(Handler.HandlerOf(e), log.trace, n);
      assert log.trace[n] != Stop(e) && !log.trace[n].Stop?;
    }
  }

  // ------------------------------------------------------------ dispatcher

  ghost function RoundSteps(batch: seq<TaskId>, k: nat): seq<Action> {
    [ReadReady(batch)] + Master.Sends(k)
  }

  /** Where the dispatcher stands follows from its own steps. */
  lemma {:induction false} DispatcherFollows(states: seq<State>, acts: seq<Action>, n: nat, batch: seq<TaskId>, k: nat)
    requires Path(states, acts) && n <= |acts| && k <= |batch|
    requires OwnSteps(Master.Dispatching(), acts[..n]) == RoundSteps(batch, k)
    ensures states[n].dispatcher == Dispatcher.Dispatching(batch[k..], batch[..k])
  {
    var mine := Master.Dispatching();
    assert n > 0;
    OwnNext(mine, acts, n - 1);
    RunStep(states, acts, n - 1);
    if !mine(acts[n - 1]) {
      DispatcherFollows(states, acts, n - 1, batch, k);
      Master.OtherKeepsDispatcher(states[n - 1], acts[n - 1]);
    } else if k > 0 {
      assert RoundSteps(batch, k) == RoundSteps(batch, k - 1) + [SendReady];
      LastOf(OwnSteps(mine, acts[..n - 1]), acts[n - 1], RoundSteps(batch, k - 1), SendReady);
      DispatcherFollows(states, acts, n - 1, batch, k - 1);
      SendMoves(states[n - 1], states[n], batch, k - 1);
    } else {
      assert RoundSteps(batch, k) == [] + [ReadReady(batch)];
      LastOf(OwnSteps(mine, acts[..n - 1]), acts[n - 1], [], ReadReady(batch));
      ReadMoves(states[n - 1], states[n], batch);
    }
  }

  lemma ReadMoves(s: State, s': State, batch: seq<TaskId>)
    requires Next(s, ReadReady(batch), s')
    ensures s'.dispatcher == Dispatcher.Dispatching(batch[0..], batch[..0])
  {
    assert s' == ApplyDispatch(s, ReadReady(batch));
  }

  lemma SendMoves(s: State, s': State, batch: seq<TaskId>, k: nat)
    requires k < |batch| && s.dispatcher == Dispatcher.Dispatching(batch[k..], batch[..k]) && Next(s, SendReady, s')
    ensures s'.dispatcher == Dispatcher.Dispatching(batch[k + 1..], batch[..k + 1])
    ensures s'.stream == s.stream + [Message(batch[k], 1)]
  {
    assert s' == ApplyDispatch(s, SendReady);
    assert batch[k..][1..] == batch[k + 1..] && batch[..k] + [batch[k..][0]] == batch[..k + 1];
  }

  lemma {:induction false} MarkStays(states: seq<State>, acts: seq<Action>, i: nat, n: nat, t: TaskId)
    requires Path(states, acts) && i <= n <= |acts| && t in states[i].tasks && states[i].tasks[t].dispatched
    ensures t in states[n].tasks && states[n].tasks[t].dispatched
    decreases n
  {
    if i < n {
      MarkStays(states, acts, i, n - 1, t);
      RunStep(states, acts, n - 1);
      StepKeepsMark(states[n - 1], acts[n - 1], t);
    }
  }

  lemma StepKeepsMark(s: State, a: Action, t: TaskId)
    requires Enabled(s, a) && t in s.tasks && s.tasks[t].dispatched
    ensures t in Apply(s, a).tasks && Apply(s, a).tasks[t].dispatched
  {
    if SubmitAction(a) {
      assert Apply(s, a) == ApplySubmit(s, a);
    } else if DispatchAction(a) {
      assert Apply(s, a) == ApplyDispatch(s, a);
    } else if WorkerAction(a) {
      assert Apply(s, a) == ApplyWorker(s, a);
    }
  }

  /** After a round of the dispatcher every task of its batch has a first message in the
      stream, sent before the row was marked, and its row is marked. */
  lemma RoundDelivers(log: Log, now: State, batch: seq<TaskId>, k: nat) returns (i: nat, j: nat)
    requires Logged(log, Master.Dispatching(), now) && k < |batch|
    requires log.own == [ReadReady(batch)] + Master.Sends(|batch|) + [MarkReady]
    ensures i < j < |log.trace| && log.trace[j] == MarkReady
    ensures Message(batch[k], 1) in log.states[i + 1].stream && Message(batch[k], 1) in now.stream
    ensures batch[k] in now.tasks && now.tasks[batch[k]].dispatched
  {
    var mine, n := Master.Dispatching(), |log.trace|;
    i := OwnAt(mine, log.trace, k + 1);
    j := OwnAt(mine, log.trace, |batch| + 1);
    OwnSpread(mine, log.trace, i, j, k + 1, |batch| + 1);
    assert log.own[..k + 1] == RoundSteps(batch, k) && log.own[..|batch| + 1] == RoundSteps(batch, |batch|);
    SentThere(log, now, batch, k, i);
    MarkedThere(log, now, batch, k, j);
  }

  lemma SentThere(log: Log, now: State, batch: seq<TaskId>, k: nat, i: nat)
    requires Logged(log, Master.Dispatching(), now) && k < |batch| && i < |log.trace| && log.trace[i] == SendReady
    requires OwnSteps(Master.Dispatching(), log.trace[..i]) == RoundSteps(batch, k)
    ensures Message(batch[k], 1) in log.states[i + 1].stream && Message(batch[k], 1) in now.stream
  {
    DispatcherFollows(log.states, log.trace, i, batch, k);
    StepAtLog(log, Master.Dispatching(), now, i);
    SendMoves(log.states[i], log.states[i + 1], batch, k);
    GrowsRun(log.states, log.trace, i + 1, |log.trace|);
    var f := |log.states[i].stream|;
    assert log.states[i + 1].stream[f] == Message(batch[k], 1) && now.stream[f] == Message(batch[k], 1);
  }

  lemma MarkedThere(log: Log, now: State, batch: seq<TaskId>, k: nat, j: nat)
    requires Logged(log, Master.Dispatching(), now) && k < |batch| && j < |log.trace| && log.trace[j] == MarkReady
    requires OwnSteps(Master.Dispatching(), log.trace[..j]) == RoundSteps(batch, |batch|)
    ensures batch[k] in now.tasks && now.tasks[batch[k]].dispatched
  {
    DispatcherFollows(log.states, log.trace, j, batch, |batch|);
    StepAtLog(log, Master.Dispatching(), now, j);
    BasicPath(log.states, log.trace, j);
    assert batch[..|batch|] == batch && batch[k] in batch;
    assert log.states[j + 1] == ApplyDispatch(log.states[j], MarkReady);
    MarkStays(log.states, log.trace, j + 1, |log.trace|, batch[k]);
  }

  // ---------------------------------------------------------- closing loop

  ghost predicate Closed(s: State, scan: ScanId) {
    scan in s.scans && (s.scans[scan].ScanCompleted? || s.scans[scan].ScanFailed?)
  }

  lemma StepKeepsClosed(s: State, a: Action, scan: ScanId)
    requires SubmissionsOk(s.submissions, s.plans, s.scans, s.tasks.Keys) && ClosingOk(s.closing, s.scans)
    requires Enabled(s, a) && Closed(s, scan)
    ensures Closed(Apply(s, a), scan)
  {
    if SubmitAction(a) {
      assert Apply(s, a) == ApplySubmit(s, a);
    } else if ClosingAction(a) {
      assert Apply(s, a) == ApplyClosing(s, a);
    } else {
      KeepsScans(s, a);
    }
  }

  lemma {:induction false} ClosedStays(states: seq<State>, acts: seq<Action>, i: nat, n: nat, scan: ScanId)
    requires Path(states, acts) && Basic(states[0]) && i <= n <= |acts| && Closed(states[i], scan)
    ensures Closed(states[n], scan)
    decreases n
  {
    if i < n {
      ClosedStays(states, acts, i, n - 1, scan);
      ClosedAt(states, acts, n - 1, scan);
    }
  }

  lemma ClosedAt(states: seq<State>, acts: seq<Action>, k: nat, scan: ScanId)
    requires Path(states, acts) && Basic(states[0]) && k < |acts| && Closed(states[k], scan)
    ensures Closed(states[k + 1], scan)
  {
    BasicPath(states, acts, k);
    RunStep(states, acts, k);
    StepKeepsClosed(states[k], acts[k], scan);
  }

  lemma CloseCloses(s: State, scan: ScanId, s': State)
    requires ClosingOk(s.closing, s.scans) && Next(s, Close(scan), s')
    ensures Closed(s', scan)
  {
    assert s' == ApplyClosing(s, Close(scan));
  }

  lemma {:induction false} TalliesClose(rows: seq<ScanId>, decided: seq<bool>, k: nat)
    requires |decided| == |rows| && k < |rows| && decided[k]
    ensures Close(rows[k]) in Maintenance.Tallies(rows, decided)
  {
    var n := |rows| - 1;
    if k < n {
      TalliesClose(rows[..n], decided[..n], k);
    } else {
      assert Maintenance.TallySteps(rows[n], true)[1] == Close(rows[n]);
    }
  }

  /** After a round of the closing loop every scan that it decided is closed. */
  lemma RoundCloses(log: Log, now: State, rows: seq<ScanId>, decided: seq<bool>, k: nat)
    requires Logged(log, Maintenance.Closer(), now) && |decided| == |rows| && k < |rows| && decided[k]
    requires log.own == Maintenance.Selects(rows) + Maintenance.Tallies(rows, decided)
    ensures Closed(now, rows[k])
  {
    TalliesClose(rows, decided, k);
    assert Close(rows[k]) in log.own;
    var m :| 0 <= m < |log.own| && log.own[m] == Close(rows[k]);
    var i := OwnAt(Maintenance.Closer(), log.trace, m);
    StepAtLog(log, Maintenance.Closer(), now, i);
    BasicPath(log.states, log.trace, i);
    CloseCloses(log.states[i], rows[k], log.states[i + 1]);
    ClosedStays(log.states, log.trace, i + 1, |log.trace|, rows[k]);
  }
}
