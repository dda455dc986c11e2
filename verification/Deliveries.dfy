/** One delivery from start to end, nothing else being at work: claimed and run to
    success, or not claimable any more. */
module Deliveries {
  import opened Prelude
  import opened Planner
  import opened Lifecycle
  import opened CleanRuns

  ghost function Handled(s: State, workers: map<nat, Phase>, row: Row): State
    requires s.cursor < |s.stream|
  {
    s.(cursor := s.cursor + 1, pel := s.pel + {s.cursor}, workers := workers,
       tasks := s.tasks[s.stream[s.cursor].task := row])
  }

  /** What is left of the delivery in the end. */
  ghost function Handed(s: State, row: Row, found: set<(ScanId, string)>): State
    requires s.cursor < |s.stream|
  {
    s.(cursor := s.cursor + 1, tasks := s.tasks[s.stream[s.cursor].task := row], findings := s.findings + found)
  }

  ghost function Reported(scan: ScanId, types: set<string>): set<(ScanId, string)> {
    set ty | ty in types :: (scan, ty)
  }

  ghost predicate NextEntry(s: State, t: TaskId) {
    && s.cursor < |s.stream| && s.stream[s.cursor].task == t && t in s.tasks
    && s.workers == map[] && forall e | e in s.pel :: e < s.cursor
  }

  lemma DeliverOne(s: State, t: TaskId)
    requires NextEntry(s, t)
    ensures Next(s, Deliver, Handled(s, map[s.cursor := Fetched], s.tasks[t]))
  {
    assert s.tasks[t := s.tasks[t]] == s.tasks;
    assert Handled(s, map[s.cursor := Fetched], s.tasks[t]) == ApplyWorker(s, Deliver);
  }

  lemma ClaimOne(s: State, t: TaskId)
    requires NextEntry(s, t) && s.tasks[t].state.Queued?
    ensures Next(Handled(s, map[s.cursor := Fetched], s.tasks[t]), TryClaim(s.cursor),
                 Handled(s, map[s.cursor := Claimed], s.tasks[t].(state := Running)))
  {
    var s1 := Handled(s, map[s.cursor := Fetched], s.tasks[t]);
    assert Claimable(s1, s.cursor);
    assert Handled(s, map[s.cursor := Claimed], s.tasks[t].(state := Running)) == ApplyWorker(s1, TryClaim(s.cursor));
  }

  lemma RecordOne(s: State, t: TaskId, types: set<string>)
    requires NextEntry(s, t)
    ensures var s2 := Handled(s, map[s.cursor := Claimed], s.tasks[t].(state := Running));
            Next(s2, Record(s.cursor, types),
                 s2.(workers := map[s.cursor := Recorded], findings := s.findings + Reported(t.scan, types)))
  {
    var s2 := Handled(s, map[s.cursor := Claimed], s.tasks[t].(state := Running));
    assert s2.(workers := map[s.cursor := Recorded], findings := s.findings + Reported(t.scan, types))
           == ApplyWorker(s2, Record(s.cursor, types));
  }

  ghost function SucceededRow(row: Row): Row {
    row.(state := Succeeded, result := Some(Completed))
  }

  lemma Overwritten(tasks: Tasks, t: TaskId, a: Row, b: Row)
    ensures tasks[t := a][t := b] == tasks[t := b]
  {
  }

  lemma ConcludeOne(s: State, t: TaskId, types: set<string>)
    requires NextEntry(s, t)
    ensures var s3 := Handled(s, map[s.cursor := Recorded], s.tasks[t].(state := Running))
                        .(findings := s.findings + Reported(t.scan, types));
            var s4 := Handled(s, map[s.cursor := Finished], SucceededRow(s.tasks[t]))
                        .(findings := s.findings + Reported(t.scan, types));
            Next(s3, Conclude(s.cursor, Completed), s4)
  {
    var s3 := Handled(s, map[s.cursor := Recorded], s.tasks[t].(state := Running))
                .(findings := s.findings + Reported(t.scan, types));
    Overwritten(s.tasks, t, s.tasks[t].(state := Running), SucceededRow(s.tasks[t]));
    ConcludeGives(s3, s.cursor);
  }

  lemma ConcludeGives(s: State, e: nat)
    requires At(s, e, Recorded) && s.workers == map[e := Recorded]
    ensures var t := s.stream[e].task;
            Next(s, Conclude(e, Completed), s.(tasks := s.tasks[t := SucceededRow(s.tasks[t])], workers := map[e := Finished]))
  {
    var t := s.stream[e].task;
    assert s.(tasks := s.tasks[t := SucceededRow(s.tasks[t])], workers := map[e := Finished])
           == ApplyWorker(s, Conclude(e, Completed));
  }

  lemma AckOne(s: State, t: TaskId, phase: Phase, row: Row, found: set<(ScanId, string)>)
    requires NextEntry(s, t) && (phase.Finished? || phase.Unclaimable?)
    ensures Next(Handled(s, map[s.cursor := phase], row).(findings := s.findings + found), Ack(s.cursor),
                 Handed(s, row, found))
  {
    var s4 := Handled(s, map[s.cursor := phase], row).(findings := s.findings + found);
    assert s.pel + {s.cursor} - {s.cursor} == s.pel;
    assert Handed(s, row, found) == ApplyWorker(s4, Ack(s.cursor));
  }

  lemma RunsToSuccess(s: State, t: TaskId, types: set<string>) returns (acts: seq<Action>)
    requires NextEntry(s, t) && s.tasks[t].state.Queued?
    ensures Exec(s, acts, Handed(s, SucceededRow(s.tasks[t]), Reported(t.scan, types)))
  {
    var e, found := s.cursor, Reported(t.scan, types);
    var s1, s2 := Handled(s, map[e := Fetched], s.tasks[t]), Handled(s, map[e := Claimed], s.tasks[t].(state := Running));
    var s3 := Handled(s, map[e := Recorded], s.tasks[t].(state := Running)).(findings := s.findings + found);
    var s4 := Handled(s, map[e := Finished], SucceededRow(s.tasks[t])).(findings := s.findings + found);
    DeliverOne(s, t);
    ClaimOne(s, t);
    RecordOne(s, t, types);
    ConcludeOne(s, t, types);
    AckOne(s, t, Finished, SucceededRow(s.tasks[t]), found);
    var rest := ThreeSteps(s2, Record(e, types), s3, Conclude(e, Completed), s4, Ack(e),
                           Handed(s, SucceededRow(s.tasks[t]), found));
    ExecCons(s1, TryClaim(e), s2, rest, Handed(s, SucceededRow(s.tasks[t]), found));
    ExecCons(s, Deliver, s1, [TryClaim(e)] + rest, Handed(s, SucceededRow(s.tasks[t]), found));
    acts := [Deliver] + ([TryClaim(e)] + rest);
  }

  /** A further delivery of a task that has succeeded is ACKed unclaimed. */
  lemma PassedOver(s: State, t: TaskId) returns (acts: seq<Action>)
    requires NextEntry(s, t) && s.tasks[t].state.Succeeded?
    ensures Exec(s, acts, Handed(s, s.tasks[t], {}))
  {
    var e := s.cursor;
    var s1, s2 := Handled(s, map[e := Fetched], s.tasks[t]), Handled(s, map[e := Unclaimable], s.tasks[t]);
    DeliverOne(s, t);
    assert !Claimable(s1, e) && s2 == ApplyWorker(s1, TryClaim(e));
    AckOne(s, t, Unclaimable, s.tasks[t], {});
    assert s2.(findings := s.findings + {}) == s2;
    acts := ThreeSteps(s, Deliver, s1, TryClaim(e), s2, Ack(e), Handed(s, s.tasks[t], {}));
  }
}
