/** Repeated targets: a submission sends a root once per entry of its plan, so a
    repeated root is in the queue twice. */
module Repeats {
  import opened Prelude
  import opened Graph
  import opened Planner
  import opened Lifecycle
  import opened Runs
  import opened Retries
  import opened CleanRuns
  import opened Traces
  import Master

  // ------------------------------------------- what a submission has sent

  ghost function SentBy(s: State, a: Action, scan: ScanId): seq<Message> {
    if a == Send(scan) && Enabled(s, a) then [Message(Current(s, scan).id, 1)] else []
  }

  /** The messages that the submission of the scan sends in the first n steps. */
  ghost function SentFor(states: seq<State>, acts: seq<Action>, n: nat, scan: ScanId): seq<Message>
    requires n <= |acts| <= |states|
  {
    if n == 0 then [] else SentFor(states, acts, n - 1, scan) + SentBy(states[n - 1], acts[n - 1], scan)
  }

  /** The roots of the entries dealt with so far, the current one included once it is sent. */
  ghost function Due(plan: seq<Planned>, sub: Submission): seq<Message>
    requires sub.pos <= |plan|
  {
    RootMessages(plan[..if sub.point.Marking? && sub.pos < |plan| then sub.pos + 1 else sub.pos])
  }

  ghost predicate SentSoFar(s: State, scan: ScanId, sent: seq<Message>) {
    if scan !in s.plans then sent == []
    else if scan in s.submissions then
      && s.submissions[scan].pos <= |s.plans[scan]|
      && (!s.submissions[scan].point.Inserting? ==>
            s.submissions[scan].pos < |s.plans[scan]| && s.plans[scan][s.submissions[scan].pos].deps == [])
      && sent == Due(s.plans[scan], s.submissions[scan])
    else if scan in s.scans && s.scans[scan].Pending? then sent <= RootMessages(s.plans[scan])
    else sent == RootMessages(s.plans[scan])
  }

  lemma {:induction false} PartSent(plan: seq<Planned>, k: nat)
    requires k <= |plan|
    ensures RootMessages(plan[..k]) <= RootMessages(plan)
  {
    if k < |plan| {
      PartSent(plan[..|plan| - 1], k);
      assert plan[..|plan| - 1][..k] == plan[..k];
    } else {
      assert plan[..k] == plan;
    }
  }

  lemma NextSent(plan: seq<Planned>, k: nat)
    requires k < |plan|
    ensures RootMessages(plan[..k + 1]) ==
            RootMessages(plan[..k]) + if plan[k].deps == [] then [Message(plan[k].id, 1)] else []
  {
    assert plan[..k + 1][..k] == plan[..k];
  }

  lemma OwnSends(s: State, a: Action, scan: ScanId, sent: seq<Message>)
    requires Enabled(s, a) && (a == Insert(scan) || a == Send(scan) || a == Mark(scan))
    requires scan in s.plans && SentSoFar(s, scan, sent)
    ensures SentSoFar(ApplySubmit(s, a), scan, sent + SentBy(s, a, scan))
  {
    assert sent + [] == sent;
    NextSent(s.plans[scan], s.submissions[scan].pos);
  }

  lemma OwnEnds(s: State, a: Action, scan: ScanId, sent: seq<Message>)
    requires Enabled(s, a) && (a == Finish(scan) || a == Abandon(scan))
    requires scan in s.plans && scan in s.scans && s.scans[scan].Pending? && SentSoFar(s, scan, sent)
    ensures SentSoFar(ApplySubmit(s, a), scan, sent + SentBy(s, a, scan))
  {
    var pos, plan := s.submissions[scan].pos, s.plans[scan];
    assert sent + [] == sent && plan[..|plan|] == plan;
    PartSent(plan, if s.submissions[scan].point.Marking? then pos + 1 else pos);
  }

  lemma SubmitSends(s: State, a: Action, scan: ScanId, sent: seq<Message>)
    requires s.plans.Keys == s.scans.Keys && Enabled(s, a) && SubmitAction(a) && SentSoFar(s, scan, sent)
    requires forall c | c in s.submissions :: c in s.scans && s.scans[c].Pending?
    ensures SentSoFar(ApplySubmit(s, a), scan, sent + SentBy(s, a, scan))
  {
    if a.scan != scan || a.Begin? {
      assert sent + [] == sent;
    } else if a.Finish? || a.Abandon? {
      OwnEnds(s, a, scan, sent);
    } else {
      OwnSends(s, a, scan, sent);
    }
  }

  lemma OthersSendNothing(s: State, a: Action, scan: ScanId, sent: seq<Message>)
    requires Basic(s) && Enabled(s, a) && !SubmitAction(a) && SentSoFar(s, scan, sent)
    ensures SentSoFar(Apply(s, a), scan, sent + SentBy(s, a, scan))
  {
    assert sent + [] == sent;
    KeepsPlans(s, a);
    KeepsSubmissions(s, a);
    PendingStays(s, a, scan);
  }

  lemma PendingStays(s: State, a: Action, scan: ScanId)
    requires ClosingOk(s.closing, s.scans) && Enabled(s, a) && !SubmitAction(a)
    ensures scan in Apply(s, a).scans <==> scan in s.scans
    ensures scan in s.scans ==> (Apply(s, a).scans[scan].Pending? <==> s.scans[scan].Pending?)
  {
    if ClosingAction(a) {
      assert Apply(s, a) == ApplyClosing(s, a);
    } else {
      KeepsScans(s, a);
    }
  }

  lemma StepSends(s: State, a: Action, s': State, scan: ScanId, sent: seq<Message>)
    requires Basic(s) && Next(s, a, s') && SentSoFar(s, scan, sent)
    ensures SentSoFar(s', scan, sent + SentBy(s, a, scan))
  {
    if SubmitAction(a) {
      SubmitSends(s, a, scan, sent);
    } else {
      OthersSendNothing(s, a, scan, sent);
    }
  }

  lemma SendsAt(states: seq<State>, acts: seq<Action>, k: nat, scan: ScanId, sent: seq<Message>)
    requires Path(states, acts) && Basic(states[0]) && k < |acts| && SentSoFar(states[k], scan, sent)
    ensures SentSoFar(states[k + 1], scan, sent + SentBy(states[k], acts[k], scan))
  {
    BasicPath(states, acts, k);
    RunStep(states, acts, k);
    StepSends(states[k], acts[k], states[k + 1], scan, sent);
  }

  lemma {:induction false} PathSends(states: seq<State>, acts: seq<Action>, n: nat, scan: ScanId)
    requires Path(states, acts) && Basic(states[0]) && scan !in states[0].plans && n <= |acts|
    ensures SentSoFar(states[n], scan, SentFor(states, acts, n, scan))
  {
    if n > 0 {
      PathSends(states, acts, n - 1, scan);
      SendsAt(states, acts, n - 1, scan, SentFor(states, acts, n - 1, scan));
    }
  }

  /** Whatever the others do, a submission that got through has sent the roots of its
      plan, entry by entry. */
  lemma SubmissionSends(states: seq<State>, acts: seq<Action>, n: nat, scan: ScanId)
    requires Path(states, acts) && Basic(states[0]) && scan !in states[0].plans && n <= |acts|
    requires scan in states[n].scans && !states[n].scans[scan].Pending?
    ensures scan in states[n].plans && SentFor(states, acts, n, scan) == RootMessages(states[n].plans[scan])
  {
    PathSends(states, acts, n, scan);
    BasicPath(states, acts, n);
  }

  // ---------------------------------------------------------- how often

  /** Where in the plan the task stands as a root. */
  ghost function RootsAt(plan: seq<Planned>, t: TaskId): set<nat> {
    set i: nat | i < |plan| && plan[i].deps == [] && plan[i].id == t
  }

  ghost predicate DistinctRoots(plan: seq<Planned>) {
    forall i, j | 0 <= i < j < |plan| && plan[i].deps == [] && plan[j].deps == [] :: plan[i].id != plan[j].id
  }

  lemma CountNext<T>(s: seq<T>, x: T, y: T)
    ensures multiset(s + [x])[y] == multiset(s)[y] + if x == y then 1 else 0
  {
  }

  lemma RootsNext(plan: seq<Planned>, t: TaskId)
    requires plan != []
    ensures var n := |plan| - 1;
            |RootsAt(plan, t)| == |RootsAt(plan[..n], t)| + if plan[n].deps == [] && plan[n].id == t then 1 else 0
  {
    var n := |plan| - 1;
    var before := RootsAt(plan[..n], t);
    forall i: nat ensures i in before <==> i < n && plan[i].deps == [] && plan[i].id == t {
    }
    if plan[n].deps == [] && plan[n].id == t {
      assert RootsAt(plan, t) == before + {n} && n !in before;
    } else {
      assert RootsAt(plan, t) == before;
    }
  }

  lemma {:induction false} RootsCounted(plan: seq<Planned>, t: TaskId)
    ensures multiset(RootMessages(plan))[Message(t, 1)] == |RootsAt(plan, t)|
  {
    if plan == [] {
      assert RootsAt(plan, t) == {};
    } else {
      var n := |plan| - 1;
      RootsCounted(plan[..n], t);
      RootsNext(plan, t);
      if plan[n].deps == [] {
        CountNext(RootMessages(plan[..n]), Message(plan[n].id, 1), Message(t, 1));
      } else {
        assert RootMessages(plan) == RootMessages(plan[..n]);
      }
    }
  }

  lemma OnceEach(plan: seq<Planned>)
    ensures DistinctRoots(plan) <==> forall t :: |RootsAt(plan, t)| <= 1
  {
    if DistinctRoots(plan) {
      forall t ensures |RootsAt(plan, t)| <= 1 {
        if RootsAt(plan, t) != {} {
          var i :| i in RootsAt(plan, t);
          assert RootsAt(plan, t) == {i};
        }
      }
    } else {
      var i, j :| 0 <= i < j < |plan| && plan[i].deps == [] && plan[j].deps == [] && plan[i].id == plan[j].id;
      assert {i, j} <= RootsAt(plan, plan[i].id);
      CardinalityMonotone({i, j}, RootsAt(plan, plan[i].id));
    }
  }

  lemma {:induction false} CardinalityMonotone<T>(small: set<T>, large: set<T>)
    requires small <= large
    ensures |small| <= |large|
    decreases small
  {
    if x :| x in small {
      CardinalityMonotone(small - {x}, large - {x});
    }
  }

  /** A submission sends task t exactly as often as t stands in its plan as a root; so
      it sends no task twice iff the keys of the roots are pairwise distinct. */
  lemma RootSendsCounted(states: seq<State>, acts: seq<Action>, n: nat, scan: ScanId)
    requires Path(states, acts) && Basic(states[0]) && scan !in states[0].plans && n <= |acts|
    requires scan in states[n].scans && !states[n].scans[scan].Pending?
    ensures scan in states[n].plans
    ensures forall t :: multiset(SentFor(states, acts, n, scan))[Message(t, 1)] == |RootsAt(states[n].plans[scan], t)|
    ensures (forall t :: multiset(SentFor(states, acts, n, scan))[Message(t, 1)] <= 1) <==>
            DistinctRoots(states[n].plans[scan])
  {
    SubmissionSends(states, acts, n, scan);
    var plan := states[n].plans[scan];
    forall t ensures multiset(SentFor(states, acts, n, scan))[Message(t, 1)] == |RootsAt(plan, t)| {
      RootsCounted(plan, t);
    }
    OnceEach(plan);
  }

  lemma StreamStep(s: State, a: Action, scan: ScanId)
    requires Enabled(s, a)
    ensures s.stream + SentBy(s, a, scan) <= Apply(s, a).stream
  {
    GrowsStep(s, a);
    if a == Send(scan) {
      assert Apply(s, a) == ApplySubmit(s, a);
    }
  }

  lemma PrefixCounts<T>(a: seq<T>, b: seq<T>)
    requires a <= b
    ensures multiset(a) <= multiset(b)
  {
    assert b == a + b[|a|..];
  }

  /** And what it sends is in the stream. */
  lemma {:induction false} SentArrives(states: seq<State>, acts: seq<Action>, n: nat, scan: ScanId)
    requires Path(states, acts) && n <= |acts|
    ensures multiset(SentFor(states, acts, n, scan)) <= multiset(states[n].stream)
  {
    if n > 0 {
      SentArrives(states, acts, n - 1, scan);
      RunStep(states, acts, n - 1);
      StreamStep(states[n - 1], acts[n - 1], scan);
      PrefixCounts(states[n - 1].stream + SentBy(states[n - 1], acts[n - 1], scan), states[n].stream);
    }
  }

  /** The submission coroutine: what its log says about its own messages. */
  lemma LoggedSends(log: Log, scan: ScanId, now: State, t: TaskId)
    requires Logged(log, Master.SubmissionOf(scan), now) && scan !in log.states[0].scans
    requires scan in now.scans && !now.scans[scan].Pending?
    ensures scan in now.plans
    ensures multiset(SentFor(log.states, log.trace, |log.trace|, scan))[Message(t, 1)] == |RootsAt(now.plans[scan], t)|
    ensures multiset(now.stream)[Message(t, 1)] >= |RootsAt(now.plans[scan], t)|
  {
    RootSendsCounted(log.states, log.trace, |log.trace|, scan);
    SentArrives(log.states, log.trace, |log.trace|, scan);
  }

  // ------------------------------------------------ two live deliveries

  lemma {:induction false} OneMessageEach(plan: seq<Planned>)
    ensures forall m | m in RootMessages(plan) :: m.attempt == 1
    ensures Distinct(RootMessages(plan)) <==> DistinctRoots(plan)
  {
    if plan != [] {
      var n := |plan| - 1;
      var init := plan[..n];
      OneMessageEach(init);
      RootInMessages(init, plan[n].id);
      DistinctRootsNext(plan);
      DistinctNext(RootMessages(init), Message(plan[n].id, 1));
    }
  }

  lemma DistinctNext<T>(s: seq<T>, x: T)
    ensures Distinct(s + [x]) <==> Distinct(s) && x !in s
  {
    if Distinct(s + [x]) {
      forall i | 0 <= i < |s| ensures s[i] != x {
        assert (s + [x])[i] != (s + [x])[|s|];
      }
      forall i, j | 0 <= i < j < |s| ensures s[i] != s[j] {
        assert (s + [x])[i] != (s + [x])[j];
      }
    }
  }

  lemma DistinctRootsNext(plan: seq<Planned>)
    requires plan != []
    ensures var n := |plan| - 1;
            DistinctRoots(plan) <==>
            DistinctRoots(plan[..n]) &&
            (plan[n].deps == [] ==> !exists i :: 0 <= i < n && plan[..n][i].deps == [] && plan[..n][i].id == plan[n].id)
  {
  }

  /** An undisturbed submission, its scan running and nothing delivered yet, leaves at
      most one live delivery per task iff the keys of its roots are distinct. */
  lemma RepeatedRootsTwice(s0: State, scan: ScanId, plan: seq<Planned>) returns (acts: seq<Action>, s': State)
    requires Init(s0) && plan != [] && PlanShape(scan, plan)
    ensures Exec(s0, acts, s') && s'.plans == map[scan := plan] && s'.scans == map[scan := Active]
    ensures s'.stream == RootMessages(plan) && s'.cursor == 0
    ensures (forall t :: AtMostOneLive(s', t)) <==> DistinctRoots(plan)
  {
    acts := SubmitIsRun(s0, scan, plan);
    s' := Submitted(s0, scan, plan);
    assert s'.stream == RootMessages(plan);
    OneMessageEach(plan);
    AllWaiting(s');
  }

  /** Where nothing is delivered or claimed, every entry is live. */
  lemma AllWaiting(s: State)
    requires s.cursor == 0 && s.claims == map[] && forall m | m in s.stream :: m.attempt == 1
    ensures (forall t :: AtMostOneLive(s, t)) <==> Distinct(s.stream)
  {
    if forall t :: AtMostOneLive(s, t) {
      forall i, j | 0 <= i < j < |s.stream| ensures s.stream[i] != s.stream[j] {
        var t := s.stream[i].task;
        assert AtMostOneLive(s, t) && IsFor(s, i, t) && LiveEntry(s, i) && LiveEntry(s, j);
      }
    }
    if Distinct(s.stream) {
      forall t ensures AtMostOneLive(s, t) {
        forall e: nat, f: nat | IsFor(s, e, t) && IsFor(s, f, t) ensures e == f {
          assert s.stream[e] in s.stream && s.stream[f] in s.stream;
          assert s.stream[e] == s.stream[f];
        }
      }
    }
  }

  // ------------------------------------------------------- which targets

  lemma StepRoots(scan: ScanId, maxAttempts: int, step: Step, targets: seq<string>)
    ensures DistinctRoots(PlanStep(scan, maxAttempts, step, targets)) <==>
            step.deps != [] || step.fanout.Once? || Distinct(targets)
  {
    var here, groups := PlanStep(scan, maxAttempts, step, targets), Groups(step, targets);
    if step.deps == [] && !step.fanout.Once? {
      assert forall i | 0 <= i < |here| :: here[i].deps == [] && groups[i] == [targets[i]];
      forall i, j | 0 <= i < j < |targets| ensures here[i].id == here[j].id <==> targets[i] == targets[j] {
        assert groups[i][0] == targets[i] && groups[j][0] == targets[j];
      }
    }
  }

  lemma JoinedRoots(a: seq<Planned>, b: seq<Planned>)
    requires forall p, q | p in a && q in b :: p.id != q.id
    ensures DistinctRoots(a + b) <==> DistinctRoots(a) && DistinctRoots(b)
  {
    var c := a + b;
    if DistinctRoots(c) {
      forall i, j | 0 <= i < j < |b| && b[i].deps == [] && b[j].deps == [] ensures b[i].id != b[j].id {
        assert c[|a| + i] == b[i] && c[|a| + j] == b[j];
      }
      forall i, j | 0 <= i < j < |a| && a[i].deps == [] && a[j].deps == [] ensures a[i].id != a[j].id {
        assert c[i] == a[i] && c[j] == a[j];
      }
    }
    if DistinctRoots(a) && DistinctRoots(b) {
      forall i, j | 0 <= i < j < |c| && c[i].deps == [] && c[j].deps == [] ensures c[i].id != c[j].id {
        if i < |a| <= j {
          assert c[i] in a && c[j] in b;
        }
      }
    }
  }

  ghost predicate RepeatsRoot(wf: Workflow, targets: seq<string>, n: nat) {
    && !Distinct(targets)
    && exists k :: 0 <= k < n && k < |wf.steps| && wf.steps[k].deps == [] && !wf.steps[k].fanout.Once?
  }

  lemma {:induction false} PrefixRoots(scan: ScanId, wf: Workflow, targets: seq<string>, n: nat)
    requires n <= |wf.steps| && DistinctNames(wf.steps)
    ensures DistinctRoots(PlanPrefix(scan, wf, targets, n)) <==> !RepeatsRoot(wf, targets, n)
  {
    if n > 0 {
      PrefixRoots(scan, wf, targets, n - 1);
      StepRoots(scan, wf.maxAttempts, wf.steps[n - 1], targets);
      var a, b := PlanPrefix(scan, wf, targets, n - 1), PlanStep(scan, wf.maxAttempts, wf.steps[n - 1], targets);
      StepsApart(scan, wf, targets, n);
      JoinedRoots(a, b);
    }
  }

  /** Entries of different steps have different keys. */
  lemma StepsApart(scan: ScanId, wf: Workflow, targets: seq<string>, n: nat)
    requires 0 < n <= |wf.steps| && DistinctNames(wf.steps)
    ensures forall p, q | p in PlanPrefix(scan, wf, targets, n - 1) &&
              q in PlanStep(scan, wf.maxAttempts, wf.steps[n - 1], targets) :: p.id != q.id
  {
    PlanMembers(scan, wf, targets, n - 1);
    forall p, q | p in PlanPrefix(scan, wf, targets, n - 1) &&
      q in PlanStep(scan, wf.maxAttempts, wf.steps[n - 1], targets)
      ensures p.id != q.id
    {
      var i :| 0 <= i < n - 1 && FromStep(p, scan, wf, targets, i);
    }
  }

  /** A plan sends some root twice iff a target is repeated and a root step runs once
      per target. */
  lemma RootsRepeatIff(scan: ScanId, wf: Workflow, targets: seq<string>)
    requires DistinctNames(wf.steps)
    ensures !DistinctRoots(Plan(scan, wf, targets)) <==> RepeatsRoot(wf, targets, |wf.steps|)
  {
    PrefixRoots(scan, wf, targets, |wf.steps|);
  }
}
