/** Following one coroutine through a run: its own steps, and what the others may do
    between them. */
module Traces {
  import opened Prelude
  import opened Graph
  import opened Planner
  import opened Lifecycle

  /** The steps of one coroutine, e.g. the handler of an entry or one submission. */
  type Coroutine = Action -> bool

  ghost function OwnSteps(mine: Coroutine, trace: seq<Action>): seq<Action> {
    if trace == [] then []
    else
      var last := trace[|trace| - 1];
      OwnSteps(mine, trace[..|trace| - 1]) + if mine(last) then [last] else []
  }

  /** The whole platform went through `states` by the steps of `trace`; `own` are those
      of the coroutine. */
  datatype Log = Log(states: seq<State>, trace: seq<Action>, own: seq<Action>)

  ghost predicate Logged(log: Log, mine: Coroutine, now: State) {
    && Path(log.states, log.trace) && OwnSteps(mine, log.trace) == log.own
    && Basic(log.states[0]) && log.states[|log.trace|] == now
  }

  function NewLog(s: State): Log {
    Log([s], [], [])
  }

  /** The later log continues the earlier one, with these own steps. */
  ghost predicate Continues(log: Log, log': Log, steps: seq<Action>) {
    log.states <= log'.states && log.trace <= log'.trace && log'.own == log.own + steps
  }

  lemma ContinuesOn(a: Log, b: Log, c: Log, steps: seq<Action>, more: seq<Action>)
    requires Continues(a, b, steps) && Continues(b, c, more)
    ensures Continues(a, c, steps + more)
  {
    assert a.own + steps + more == a.own + (steps + more);
  }

  /** Others get from s to s' by steps that are not the coroutine's. */
  ghost predicate OthersReach(mine: Coroutine, s: State, s': State) {
    exists states, acts :: OthersPath(mine, s, states, acts, s')
  }

  ghost predicate OthersPath(mine: Coroutine, s: State, states: seq<State>, acts: seq<Action>, s': State) {
    Path(states, acts) && states[0] == s && states[|acts|] == s' && forall a | a in acts :: !mine(a)
  }

  /** The others only ever take enabled steps, and none of the coroutine's. */
  ghost predicate Fair(mine: Coroutine, others: State -> State) {
    forall s :: Basic(s) ==> OthersReach(mine, s, others(s))
  }

  /** Being alone is fair. */
  lemma NobodyElse(mine: Coroutine)
    ensures Fair(mine, (s: State) => s)
  {
    forall s ensures OthersReach(mine, s, s) {
      assert OthersPath(mine, s, [s], [], s);
    }
  }

  lemma LoggedBasic(log: Log, mine: Coroutine, now: State)
    requires Logged(log, mine, now)
    ensures Basic(now)
  {
    BasicPath(log.states, log.trace, |log.trace|);
  }

  lemma {:induction false} OwnAppend(mine: Coroutine, trace: seq<Action>, more: seq<Action>)
    requires forall a | a in more :: !mine(a)
    ensures OwnSteps(mine, trace + more) == OwnSteps(mine, trace)
  {
    if more == [] {
      assert trace + more == trace;
    } else {
      assert (trace + more)[..|trace + more| - 1] == trace + more[..|more| - 1];
      OwnAppend(mine, trace, more[..|more| - 1]);
    }
  }

  lemma OwnStep(log: Log, mine: Coroutine, s: State, a: Action, s': State) returns (log': Log)
    requires Logged(log, mine, s) && Next(s, a, s') && mine(a)
    ensures Logged(log', mine, s') && Continues(log, log', [a])
  {
    log' := Log(log.states + [s'], log.trace + [a], log.own + [a]);
    assert StepAt([s, s'], [a], 0);
    PathAppend(log.states, log.trace, [s, s'], [a]);
    assert [s, s'][1..] == [s'] && (log.trace + [a])[..|log.trace|] == log.trace;
  }

  lemma OthersStep(log: Log, mine: Coroutine, s: State, s': State)
    returns (log': Log, states: seq<State>, acts: seq<Action>)
    requires Logged(log, mine, s) && OthersReach(mine, s, s')
    ensures Logged(log', mine, s') && Continues(log, log', [])
    ensures Basic(s) && OthersPath(mine, s, states, acts, s')
  {
    states, acts :| OthersPath(mine, s, states, acts, s');
    LoggedBasic(log, mine, s);
    log' := Log(log.states + states[1..], log.trace + acts, log.own);
    PathAppend(log.states, log.trace, states, acts);
    OwnAppend(mine, log.trace, acts);
    assert log.own + [] == log.own;
  }
}
