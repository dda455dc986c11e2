/** Why "no hanging" needs its condition: a refused tool does not cascade, so a scan
    whose root is refused comes to rest with its dependent task still queued. */
module Refusal {
  import opened Prelude
  import opened Graph
  import opened Planner
  import opened Lifecycle
  import opened CleanRuns
  import opened CleanTheorems
  import opened Progress

  /** A root and a task that depends on it. */
  ghost predicate Chain(p: Planned, q: Planned) {
    && p.deps == [] && q.deps == [p.id.step] && q.id.scan == p.id.scan && q.id != p.id
    && PlanShape(p.id.scan, [p, q])
  }

  /** The scan of the chain, its dependent task untouched. */
  ghost function Halted(p: Planned, q: Planned, root: Row, cursor: nat, workers: map<nat, Phase>): State {
    var scan := p.id.scan;
    State(map[p.id := root, q.id := FreshRow(q)], map[scan := Active], map[scan := [p, q]], {}, [Message(p.id, 1)],
          cursor, workers.Keys, workers, map[], map[], Idle, map[])
  }

  ghost function Root(p: Planned, state: TaskState, result: Option<Verdict>): Row {
    Row(p.deps, p.gate, p.maxAttempts, state, true, result)
  }

  /** The run: delivered, claimed, refused, ACKed. */
  ghost function Stage(p: Planned, q: Planned, k: nat): State
    requires k <= 4
  {
    if k == 0 then Halted(p, q, Root(p, Queued, None), 0, map[])
    else if k == 1 then Halted(p, q, Root(p, Queued, None), 1, map[0 := Fetched])
    else if k == 2 then Halted(p, q, Root(p, Running, None), 1, map[0 := Claimed])
    else if k == 3 then Halted(p, q, Root(p, Dead, Some(NotPermitted)), 1, map[0 := Finished])
    else Halted(p, q, Root(p, Dead, Some(NotPermitted)), 1, map[])
  }

  function StageMove(k: nat): Move {
    Work(if k == 0 then Deliver else if k == 1 then TryClaim(0) else if k == 2 then Conclude(0, NotPermitted) else Ack(0))
  }

  ghost predicate CleanMove(s: State, m: Move, s': State) {
    Possible(s, m) && s' == Moved(s, m)
  }

  lemma SubmitChain(s0: State, p: Planned, q: Planned)
    requires Init(s0) && Chain(p, q)
    ensures CleanMove(s0, Submit(p.id.scan, [p, q]), Stage(p, q, 0))
  {
    AddOne(map[], [], p);
    AddOne(map[], [p], q);
    assert [] + [p] == [p] && [p] + [q] == [p, q];
    var sent := [Message(p.id, 1)];
    assert RootMessages([p]) == sent && RootMessages([p, q]) == sent && s0.stream + sent == sent;
    assert DistinctKeys([p, q]);
  }

  lemma AddOne(tasks: Tasks, plan: seq<Planned>, p: Planned)
    ensures AddRows(tasks, plan + [p]) == AddRows(tasks, plan)[p.id := PlannedRow(p)]
    ensures RootMessages(plan + [p]) == RootMessages(plan) + if p.deps == [] then [Message(p.id, 1)] else []
  {
    assert (plan + [p])[..|plan|] == plan;
  }

  lemma StageDelivers(p: Planned, q: Planned)
    ensures CleanMove(Stage(p, q, 0), StageMove(0), Stage(p, q, 1))
  {
  }

  lemma StageClaims(p: Planned, q: Planned)
    requires q.id != p.id
    ensures CleanMove(Stage(p, q, 1), StageMove(1), Stage(p, q, 2))
  {
    assert Claimable(Stage(p, q, 1), 0);
  }

  lemma StageRefuses(p: Planned, q: Planned)
    requires q.id != p.id
    ensures CleanMove(Stage(p, q, 2), StageMove(2), Stage(p, q, 3))
  {
  }

  lemma StageAcks(p: Planned, q: Planned)
    ensures CleanMove(Stage(p, q, 3), StageMove(3), Stage(p, q, 4))
  {
  }

  lemma StageNext(p: Planned, q: Planned, k: nat)
    requires k < 4 && q.id != p.id
    ensures CleanMove(Stage(p, q, k), StageMove(k), Stage(p, q, k + 1))
  {
    if k == 0 { StageDelivers(p, q); }
    else if k == 1 { StageClaims(p, q); }
    else if k == 2 { StageRefuses(p, q); }
    else { StageAcks(p, q); }
  }

  lemma HaltedRests(p: Planned, q: Planned)
    requires Chain(p, q)
    ensures AtRest(Stage(p, q, 4))
  {
    var s := Stage(p, q, 4);
    assert p.id.step in s.tasks[q.id].deps && !s.tasks[p.id].state.Succeeded?;
    assert !s.tasks[q.id].state.Terminal();
  }

  lemma Extend(states: seq<State>, moves: seq<Move>, m: Move, s': State) returns (states': seq<State>, moves': seq<Move>)
    requires IsCleanRun(states, moves) && CleanMove(states[|moves|], m, s')
    ensures IsCleanRun(states', moves') && states'[|moves'|] == s'
  {
    ExtendRun(states, moves, m);
    states', moves' := states + [s'], moves + [m];
  }

  lemma {:induction false} RunToStage(s0: State, p: Planned, q: Planned, k: nat)
    returns (states: seq<State>, moves: seq<Move>)
    requires Init(s0) && Chain(p, q) && k <= 4
    ensures IsCleanRun(states, moves) && states[|moves|] == Stage(p, q, k)
  {
    if k == 0 {
      SubmitChain(s0, p, q);
      states, moves := Extend([s0], [], Submit(p.id.scan, [p, q]), Stage(p, q, 0));
    } else {
      states, moves := RunToStage(s0, p, q, k - 1);
      StageNext(p, q, k - 1);
      states, moves := Extend(states, moves, StageMove(k - 1), Stage(p, q, k));
    }
  }

  /** A clean run that is at rest while its scan still runs: the root was refused, and
      the task that depends on it stays queued for good. */
  lemma RefusalHangs(s0: State, p: Planned, q: Planned) returns (states: seq<State>, moves: seq<Move>)
    requires Init(s0) && Chain(p, q)
    ensures IsCleanRun(states, moves) && AtRest(states[|moves|])
    ensures var s := states[|moves|];
            && p.id.scan in s.scans && s.scans[p.id.scan].Active?
            && q.id in s.tasks && s.tasks[q.id].state.Queued? && !s.tasks[q.id].dispatched && Refused(s, p.id)
  {
    states, moves := RunToStage(s0, p, q, 4);
    HaltedRests(p, q);
  }
}
