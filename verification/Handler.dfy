/** The worker's handler of one delivery, statement by statement, with everybody else
    running in between. */
module Handler {
  import opened Prelude
  import opened Graph
  import opened Planner
  import opened Lifecycle
  import opened Runtime
  import opened Traces
  import opened Context

  /** The steps of the handler of entry e. */
  function HandlerOf(e: nat): Coroutine {
    (a: Action) =>
      match a
      case TryClaim(f) => f == e
      case Record(f, _) => f == e
      case Conclude(f, _) => f == e
      case Retry(f) => f == e
      case Cascade(f) => f == e
      case Resend(f) => f == e
      case Ack(f) => f == e
      case Stop(f) => f == e
      case _ => false
  }

  /** The handler of e is at that point, with its message and row at hand. */
  ghost predicate Handling(s: State, e: nat, phase: Phase, m: Message) {
    At(s, e, phase) && s.stream[e] == m
  }

  // ------------------------------------------- the others leave it alone

  lemma OtherKeepsHandler(s: State, a: Action, e: nat)
    requires QueueOk(|s.stream|, s.cursor, s.pel, s.workers, s.claims)
    requires Enabled(s, a) && !HandlerOf(e)(a) && e in s.workers
    ensures e in Apply(s, a).workers && Apply(s, a).workers[e] == s.workers[e]
  {
  }

  ghost predicate SameLimits(s: State, s': State) {
    forall t | t in s.tasks :: t in s'.tasks && s'.tasks[t].maxAttempts == s.tasks[t].maxAttempts
  }

  lemma HandlerAt(states: seq<State>, acts: seq<Action>, e: nat, k: nat)
    requires Path(states, acts) && Basic(states[0]) && k < |acts| && !HandlerOf(e)(acts[k]) && e in states[k].workers
    ensures e in states[k + 1].workers && states[k + 1].workers[e] == states[k].workers[e]
    ensures states[k].stream <= states[k + 1].stream && SameLimits(states[k], states[k + 1])
  {
    BasicPath(states, acts, k);
    RunStep(states, acts, k);
    KeepsHandling(states[k], acts[k], states[k + 1], e);
  }

  lemma {:induction false} OthersKeepHandler(states: seq<State>, acts: seq<Action>, e: nat, n: nat)
    requires Path(states, acts) && Basic(states[0]) && n <= |acts|
    requires (forall a | a in acts :: !HandlerOf(e)(a)) && e in states[0].workers
    ensures e in states[n].workers && states[n].workers[e] == states[0].workers[e]
    ensures states[0].stream <= states[n].stream && SameLimits(states[0], states[n])
  {
    if n > 0 {
      OthersKeepHandler(states, acts, e, n - 1);
      assert acts[n - 1] in acts;
      HandlerAt(states, acts, e, n - 1);
    }
  }

  lemma KeepsHandling(s: State, a: Action, s': State, e: nat)
    requires Basic(s) && Next(s, a, s') && !HandlerOf(e)(a) && e in s.workers
    ensures e in s'.workers && s'.workers[e] == s.workers[e] && s.stream <= s'.stream && SameLimits(s, s')
  {
    OtherKeepsHandler(s, a, e);
    GrowsStep(s, a);
  }

  /** What a handler can rely on across an await. */
  ghost predicate Undisturbed(s: State, s': State, e: nat, phase: Phase, m: Message) {
    Handling(s', e, phase, m) && SameLimits(s, s')
  }

  method AwaitOthers(p: Platform, e: nat, phase: Phase, m: Message, others: State -> State, ghost log: Log)
    returns (ghost log': Log)
    requires Fair(HandlerOf(e), others) && Logged(log, HandlerOf(e), p.Now())
    requires Handling(p.Now(), e, phase, m)
    modifies p
    ensures Logged(log', HandlerOf(e), p.Now()) && Continues(log, log', [])
    ensures Undisturbed(old(p.Now()), p.Now(), e, phase, m)
  {
    ghost var before := p.Now();
    LoggedBasic(log, HandlerOf(e), before);
    p.Await(others);
    ghost var states, acts;
    log', states, acts := OthersStep(log, HandlerOf(e), before, p.Now());
    OthersKeepHandler(states, acts, e, |acts|);
  }

  // ---------------------------------------------------------- statements

  /** The claiming UPDATE; the row's `max_attempts` if it matched. */
  method ClaimTask(p: Platform, e: nat) returns (maxAttempts: Option<int>)
    requires Enabled(p.Now(), TryClaim(e)) && p.stream[e].task in p.tasks
    modifies p
    ensures Next(old(p.Now()), TryClaim(e), p.Now())
    ensures p.workers == old(p.workers)[e := if maxAttempts.Some? then Claimed else Unclaimable]
    ensures maxAttempts.Some? ==> maxAttempts.value == p.tasks[p.stream[e].task].maxAttempts
    ensures p.stream == old(p.stream) && SameLimits(old(p.Now()), p.Now())
  {
    ghost var s := p.Now();
    var t := p.stream[e].task;
    if p.tasks[t].state.Queued? || p.tasks[t].state.Running? {
      p.tasks := SetState(p.tasks, t, Running);
      p.workers := p.workers[e := Claimed];
      maxAttempts := Some(p.tasks[t].maxAttempts);
    } else {
      p.workers := p.workers[e := Unclaimable];
      maxAttempts := None;
    }
    assert p.Now() == ApplyWorker(s, TryClaim(e));
  }

  method StoreFindings(p: Platform, e: nat, types: set<string>)
    requires Enabled(p.Now(), Record(e, types))
    modifies p
    ensures Next(old(p.Now()), Record(e, types), p.Now())
  {
    ghost var s := p.Now();
    p.findings := p.findings + (set ty | ty in types :: (p.stream[e].task.scan, ty));
    p.workers := p.workers[e := Recorded];
    assert p.Now() == ApplyWorker(s, Record(e, types));
  }

  /** Persist a terminal outcome, whatever the row's state is by now. */
  method Finalize(p: Platform, e: nat, v: Verdict)
    requires Enabled(p.Now(), Conclude(e, v))
    modifies p
    ensures Next(old(p.Now()), Conclude(e, v), p.Now())
  {
    ghost var s := p.Now();
    var t := p.stream[e].task;
    p.tasks := p.tasks[t := p.tasks[t].(state := v.State(), result := Some(v))];
    p.workers := p.workers[e := if v.Cascades() then Cascading else Finished];
    assert p.Now() == ApplyWorker(s, Conclude(e, v));
  }

  method RequeueRow(p: Platform, e: nat)
    requires Enabled(p.Now(), Retry(e))
    modifies p
    ensures Next(old(p.Now()), Retry(e), p.Now())
  {
    ghost var s := p.Now();
    p.tasks := SetState(p.tasks, p.stream[e].task, Queued);
    p.workers := p.workers[e := RetryPending];
    assert p.Now() == ApplyWorker(s, Retry(e));
  }

  method Redeliver(p: Platform, e: nat)
    requires Enabled(p.Now(), Resend(e))
    modifies p
    ensures Next(old(p.Now()), Resend(e), p.Now())
  {
    ghost var s := p.Now();
    var m := p.stream[e];
    var _ := p.Enqueue(Message(m.task, m.attempt + 1));
    p.workers := p.workers[e := RetrySent];
    assert p.Now() == ApplyWorker(s, Resend(e));
  }

  method AbortBranch(p: Platform, e: nat)
    requires Enabled(p.Now(), Cascade(e))
    modifies p
    ensures Next(old(p.Now()), Cascade(e), p.Now())
  {
    ghost var s := p.Now();
    var t := p.stream[e].task;
    p.AbortDependents(t.scan, t.step);
    p.workers := p.workers[e := Finished];
    assert p.Now() == ApplyWorker(s, Cascade(e));
  }

  method Acknowledge(p: Platform, e: nat)
    requires Enabled(p.Now(), Ack(e))
    modifies p
    ensures Next(old(p.Now()), Ack(e), p.Now())
  {
    ghost var s := p.Now();
    p.AckEntry(e);
    p.workers := p.workers - {e};
    assert p.Now() == ApplyWorker(s, Ack(e));
  }

  /** The handler ends by an exception; its delivery stays un-ACKed. */
  method Abandon(p: Platform, e: nat)
    requires Enabled(p.Now(), Stop(e))
    modifies p
    ensures Next(old(p.Now()), Stop(e), p.Now())
  {
    ghost var s := p.Now();
    p.workers := p.workers - {e};
    assert p.Now() == ApplyWorker(s, Stop(e));
  }

  method Execute(p: Platform, e: nat, a: Action)
    requires HandlerOf(e)(a) && !a.TryClaim? && Enabled(p.Now(), a)
    modifies p
    ensures Next(old(p.Now()), a, p.Now())
  {
    match a
    case Record(_, types) => StoreFindings(p, e, types);
    case Conclude(_, v) => Finalize(p, e, v);
    case Retry(_) => RequeueRow(p, e);
    case Resend(_) => Redeliver(p, e);
    case Cascade(_) => AbortBranch(p, e);
    case Ack(_) => Acknowledge(p, e);
    case Stop(_) => Abandon(p, e);
  }

  // --------------------------------------------------------- the handler

  /** May the statement run at this point, given the row's `max_attempts`? */
  predicate Fits(a: Action, phase: Phase, m: Message, maxAttempts: int) {
    match a
    case Record(_, _) => phase.Claimed?
    case Conclude(_, v) =>
      if v.Completed? then phase.Recorded? else phase.Claimed? && (v.Exhausted? ==> m.attempt >= maxAttempts)
    case Retry(_) => phase.Claimed? && m.attempt < maxAttempts
    case Resend(_) => phase.RetryPending?
    case Cascade(_) => phase.Cascading?
    case Ack(_) => phase.Unclaimable? || phase.Finished? || phase.RetrySent?
    case Stop(_) => true
    case _ => false
  }

  /** Where the statement leaves the handler; None when that was the end of it. */
  function NextPhase(a: Action): Option<Phase> {
    match a
    case Record(_, _) => Some(Recorded)
    case Conclude(_, v) => Some(if v.Cascades() then Cascading else Finished)
    case Retry(_) => Some(RetryPending)
    case Resend(_) => Some(RetrySent)
    case Cascade(_) => Some(Finished)
    case _ => None
  }

  ghost predicate Reached(s: State, e: nat, phase: Option<Phase>, m: Message, maxAttempts: int) {
    if phase.None? then e !in s.workers
    else Handling(s, e, phase.value, m) && s.tasks[m.task].maxAttempts == maxAttempts
  }

  lemma StepReaches(s: State, e: nat, phase: Phase, m: Message, maxAttempts: int, a: Action)
    requires HandlerOf(e)(a) && Fits(a, phase, m, maxAttempts) && Reached(s, e, Some(phase), m, maxAttempts)
    ensures Enabled(s, a) && Reached(Apply(s, a), e, NextPhase(a), m, maxAttempts)
  {
  }

  /** One statement: the others run, then it takes its step. */
  method Do(p: Platform, e: nat, phase: Phase, m: Message, maxAttempts: int, a: Action,
            others: State -> State, ghost log: Log)
    returns (ghost log': Log)
    requires Fair(HandlerOf(e), others) && Logged(log, HandlerOf(e), p.Now())
    requires Reached(p.Now(), e, Some(phase), m, maxAttempts)
    requires HandlerOf(e)(a) && Fits(a, phase, m, maxAttempts)
    modifies p
    ensures Logged(log', HandlerOf(e), p.Now()) && Continues(log, log', [a])
    ensures Reached(p.Now(), e, NextPhase(a), m, maxAttempts)
  {
    ghost var waited := AwaitOthers(p, e, phase, m, others, log);
    log' := DoNow(p, e, phase, m, maxAttempts, a, waited);
    ContinuesOn(log, waited, log', [], [a]);
  }

  method DoNow(p: Platform, e: nat, phase: Phase, m: Message, maxAttempts: int, a: Action, ghost log: Log)
    returns (ghost log': Log)
    requires Logged(log, HandlerOf(e), p.Now()) && Reached(p.Now(), e, Some(phase), m, maxAttempts)
    requires HandlerOf(e)(a) && Fits(a, phase, m, maxAttempts)
    modifies p
    ensures Logged(log', HandlerOf(e), p.Now()) && Continues(log, log', [a])
    ensures Reached(p.Now(), e, NextPhase(a), m, maxAttempts)
  {
    ghost var s := p.Now();
    StepReaches(s, e, phase, m, maxAttempts, a);
    Execute(p, e, a);
    log' := OwnStep(log, HandlerOf(e), s, a, p.Now());
  }

  /** A tool's declaration: the finding types it consumes, and whether it needs them in
      a file. */
  datatype Tool = Tool(consumes: seq<string>, needsFile: bool)

  /** What the outside world answers a handler: is the message well formed, what do the
      scope check and the capability list say, what does the findings query answer, does
      anything else break while the tool's input is built, can its arguments be built,
      and how does the tool run end. */
  datatype Check = Passes | Refuses | Raises

  datatype Run = Reports(types: set<string>) | Fails | Breaks

  datatype World = World(wellFormed: bool, scope: Check, permitted: bool, tool: Tool, answer: State -> seq<Found>,
                         contextBreaks: bool, arguments: Check, run: Run)

  /** The tool needs an input file and its scan has no finding that it consumes. */
  ghost predicate Starved(s: State, scan: ScanId, tool: Tool) {
    tool.needsFile && forall ty | ty in tool.consumes :: (scan, ty) !in s.findings
  }

  /** The rows are the scan's findings of the consumed types, whatever their values. */
  ghost predicate Answers(rows: seq<Found>, s: State, scan: ScanId, consumes: seq<string>) {
    && (forall r | r in rows :: r.ftype in consumes && (scan, r.ftype) in s.findings)
    && forall ty | ty in consumes && (scan, ty) in s.findings :: exists r :: r in rows && r.ftype == ty
  }

  ghost predicate Queries(w: World, scan: ScanId) {
    forall s :: Answers(w.answer(s), s, scan, w.tool.consumes)
  }

  /** The statements that the handler executes after its claim. */
  function AfterClaim(e: nat, attempt: int, maxAttempts: int, w: World, starved: bool): seq<Action> {
    if w.scope.Raises? then [Stop(e)]
    else if w.scope.Refuses? then [Conclude(e, OutOfScope), Cascade(e), Ack(e)]
    else if !w.permitted then [Conclude(e, NotPermitted), Ack(e)]
    else if starved || w.contextBreaks || w.arguments.Raises? then [Stop(e)]
    else if w.arguments.Refuses? then [Conclude(e, BadParameters), Cascade(e), Ack(e)]
    else if w.run.Breaks? then [Stop(e)]
    else if w.run.Reports? then [Record(e, w.run.types), Conclude(e, Completed), Ack(e)]
    else if attempt < maxAttempts then [Retry(e), Resend(e), Ack(e)]
    else [Conclude(e, Exhausted), Cascade(e), Ack(e)]
  }

  function Script(e: nat, claimed: Option<int>, attempt: int, w: World, starved: bool): seq<Action> {
    if !w.wellFormed then [Stop(e)]
    else if claimed.None? then [TryClaim(e), Ack(e)]
    else [TryClaim(e)] + AfterClaim(e, attempt, claimed.value, w, starved)
  }

  /** All is well up to the run of the tool: the scope check and the capability list let
      the task pass, its input is there and its arguments can be built. */
  predicate GetsToRun(w: World, starved: bool) {
    w.scope.Passes? && w.permitted && !starved && !w.contextBreaks && w.arguments.Passes?
  }

  /** What the steps of a handler say, outcome by outcome, of a delivery that it claimed:
      each is taken exactly when the outside world calls for it. */
  ghost predicate CalledFor(own: seq<Action>, e: nat, attempt: int, maxAttempts: int, w: World, starved: bool) {
    && TryClaim(e) in own
    && (Conclude(e, OutOfScope) in own <==> w.scope.Refuses?)
    && (Conclude(e, NotPermitted) in own <==> w.scope.Passes? && !w.permitted)
    && (Conclude(e, BadParameters) in own <==>
          w.scope.Passes? && w.permitted && !starved && !w.contextBreaks && w.arguments.Refuses?)
    && (forall types :: Record(e, types) in own <==> GetsToRun(w, starved) && w.run == Reports(types))
    && (Conclude(e, Completed) in own <==> GetsToRun(w, starved) && w.run.Reports?)
    && (Retry(e) in own <==> GetsToRun(w, starved) && w.run.Fails? && attempt < maxAttempts)
    && (Resend(e) in own <==> GetsToRun(w, starved) && w.run.Fails? && attempt < maxAttempts)
    && (Conclude(e, Exhausted) in own <==> GetsToRun(w, starved) && w.run.Fails? && attempt >= maxAttempts)
    && (Cascade(e) in own <==>
          Conclude(e, OutOfScope) in own || Conclude(e, BadParameters) in own || Conclude(e, Exhausted) in own)
    && (Ack(e) in own <==> Stop(e) !in own)
    && (Ack(e) in own <==> Retry(e) in own || exists v :: Conclude(e, v) in own)
  }

  lemma ScriptCalledFor(e: nat, attempt: int, maxAttempts: int, w: World, starved: bool)
    requires w.wellFormed
    ensures CalledFor(Script(e, Some(maxAttempts), attempt, w, starved), e, attempt, maxAttempts, w, starved)
  {
    var own := Script(e, Some(maxAttempts), attempt, w, starved);
    if w.scope.Refuses? {
      assert own == [TryClaim(e), Conclude(e, OutOfScope), Cascade(e), Ack(e)];
    } else if w.scope.Passes? && !w.permitted {
      assert own == [TryClaim(e), Conclude(e, NotPermitted), Ack(e)];
    } else if GetsToRun(w, starved) {
      RunCalledFor(e, attempt, maxAttempts, w, starved);
    } else if w.scope.Passes? && !starved && !w.contextBreaks && w.arguments.Refuses? {
      assert own == [TryClaim(e), Conclude(e, BadParameters), Cascade(e), Ack(e)];
    } else {
      assert own == [TryClaim(e), Stop(e)];
    }
  }

  lemma RunCalledFor(e: nat, attempt: int, maxAttempts: int, w: World, starved: bool)
    requires w.wellFormed && GetsToRun(w, starved)
    ensures CalledFor(Script(e, Some(maxAttempts), attempt, w, starved), e, attempt, maxAttempts, w, starved)
  {
    var own := Script(e, Some(maxAttempts), attempt, w, starved);
    if w.run.Breaks? {
      assert own == [TryClaim(e), Stop(e)];
    } else if w.run.Reports? {
      assert own == [TryClaim(e), Record(e, w.run.types), Conclude(e, Completed), Ack(e)];
    } else if attempt < maxAttempts {
      assert own == [TryClaim(e), Retry(e), Resend(e), Ack(e)];
    } else {
      assert own == [TryClaim(e), Conclude(e, Exhausted), Cascade(e), Ack(e)];
    }
  }

  /** Both gates are passed, so the tool's input is looked up. */
  predicate GatesPassed(w: World) {
    w.scope.Passes? && w.permitted
  }

  /** Whether the tool is starved was read at some state of the log, the handler standing
      between its claim and its next statement. */
  ghost predicate ReadInput(log: Log, e: nat, scan: ScanId, tool: Tool, starved: bool) {
    exists k :: ReadInputAt(log, k, e, scan, tool, starved)
  }

  ghost predicate ReadInputAt(log: Log, k: nat, e: nat, scan: ScanId, tool: Tool, starved: bool) {
    && k < |log.states| && e in log.states[k].workers && log.states[k].workers[e].Claimed?
    && (starved <==> Starved(log.states[k], scan, tool))
  }

  lemma ReadStays(log: Log, log': Log, e: nat, scan: ScanId, tool: Tool, starved: bool)
    requires ReadInput(log, e, scan, tool, starved) && log.states <= log'.states
    ensures ReadInput(log', e, scan, tool, starved)
  {
    var k :| ReadInputAt(log, k, e, scan, tool, starved);
    assert ReadInputAt(log', k, e, scan, tool, starved);
  }

  /** The handler's log went on by the given statements. */
  ghost predicate Went(log: Log, log': Log, e: nat, now: State, steps: seq<Action>) {
    Logged(log', HandlerOf(e), now) && Continues(log, log', steps)
  }

  method RunOnce(p: Platform, e: nat, phase: Phase, m: Message, maxAttempts: int, a: Action,
                 others: State -> State, ghost log: Log)
    returns (ghost log': Log)
    requires Fair(HandlerOf(e), others) && Logged(log, HandlerOf(e), p.Now())
    requires Reached(p.Now(), e, Some(phase), m, maxAttempts)
    requires HandlerOf(e)(a) && Fits(a, phase, m, maxAttempts) && NextPhase(a).None?
    modifies p
    ensures Went(log, log', e, p.Now(), [a]) && e !in p.workers
  {
    log' := Do(p, e, phase, m, maxAttempts, a, others, log);
  }

  /** Two statements in a row, the second being the ACK. */
  method DoAndAck(p: Platform, e: nat, phase: Phase, m: Message, maxAttempts: int, a: Action,
                  others: State -> State, ghost log: Log)
    returns (ghost log': Log)
    requires Fair(HandlerOf(e), others) && Logged(log, HandlerOf(e), p.Now())
    requires Reached(p.Now(), e, Some(phase), m, maxAttempts)
    requires HandlerOf(e)(a) && Fits(a, phase, m, maxAttempts)
    requires NextPhase(a) == Some(Finished) || NextPhase(a) == Some(RetrySent)
    modifies p
    ensures Went(log, log', e, p.Now(), [a, Ack(e)]) && e !in p.workers
  {
    ghost var first := Do(p, e, phase, m, maxAttempts, a, others, log);
    log' := Do(p, e, NextPhase(a).value, m, maxAttempts, Ack(e), others, first);
    ContinuesOn(log, first, log', [a], [Ack(e)]);
  }

  /** A terminal failure: persist it, abort what depends on it, ACK. */
  method FailBranch(p: Platform, e: nat, m: Message, maxAttempts: int, v: Verdict,
                    others: State -> State, ghost log: Log)
    returns (ghost log': Log)
    requires Fair(HandlerOf(e), others) && Logged(log, HandlerOf(e), p.Now())
    requires Reached(p.Now(), e, Some(Claimed), m, maxAttempts)
    requires v.Cascades() && (v.Exhausted? ==> m.attempt >= maxAttempts)
    modifies p
    ensures Went(log, log', e, p.Now(), [Conclude(e, v), Cascade(e), Ack(e)]) && e !in p.workers
  {
    ghost var first := Do(p, e, Claimed, m, maxAttempts, Conclude(e, v), others, log);
    log' := DoAndAck(p, e, Cascading, m, maxAttempts, Cascade(e), others, first);
    ContinuesOn(log, first, log', [Conclude(e, v)], [Cascade(e), Ack(e)]);
  }

  /** The capability refusal: persist it and ACK, nothing is aborted. */
  method RefuseTool(p: Platform, e: nat, m: Message, maxAttempts: int, others: State -> State, ghost log: Log)
    returns (ghost log': Log)
    requires Fair(HandlerOf(e), others) && Logged(log, HandlerOf(e), p.Now())
    requires Reached(p.Now(), e, Some(Claimed), m, maxAttempts)
    modifies p
    ensures Went(log, log', e, p.Now(), [Conclude(e, NotPermitted), Ack(e)]) && e !in p.workers
  {
    log' := DoAndAck(p, e, Claimed, m, maxAttempts, Conclude(e, NotPermitted), others, log);
  }

  /** A successful run: findings first, then the outcome, then the ACK. */
  method Succeed(p: Platform, e: nat, m: Message, maxAttempts: int, types: set<string>,
                 others: State -> State, ghost log: Log)
    returns (ghost log': Log)
    requires Fair(HandlerOf(e), others) && Logged(log, HandlerOf(e), p.Now())
    requires Reached(p.Now(), e, Some(Claimed), m, maxAttempts)
    modifies p
    ensures Went(log, log', e, p.Now(), [Record(e, types), Conclude(e, Completed), Ack(e)]) && e !in p.workers
  {
    ghost var first := Do(p, e, Claimed, m, maxAttempts, Record(e, types), others, log);
    log' := DoAndAck(p, e, Recorded, m, maxAttempts, Conclude(e, Completed), others, first);
    ContinuesOn(log, first, log', [Record(e, types)], [Conclude(e, Completed), Ack(e)]);
  }

  /** A failed run with attempts left: the redelivery is sent before the ACK. */
  method RetryLater(p: Platform, e: nat, m: Message, maxAttempts: int, others: State -> State, ghost log: Log)
    returns (ghost log': Log)
    requires Fair(HandlerOf(e), others) && Logged(log, HandlerOf(e), p.Now())
    requires Reached(p.Now(), e, Some(Claimed), m, maxAttempts) && m.attempt < maxAttempts
    modifies p
    ensures Went(log, log', e, p.Now(), [Retry(e), Resend(e), Ack(e)]) && e !in p.workers
  {
    ghost var first := Do(p, e, Claimed, m, maxAttempts, Retry(e), others, log);
    log' := DoAndAck(p, e, RetryPending, m, maxAttempts, Resend(e), others, first);
    ContinuesOn(log, first, log', [Retry(e)], [Resend(e), Ack(e)]);
  }

  /** The tool's input; an error when it needs a file and nothing upstream was found. */
  method BuildContext(p: Platform, e: nat, m: Message, maxAttempts: int, w: World,
                      others: State -> State, ghost log: Log)
    returns (starved: bool, ghost log': Log)
    requires Fair(HandlerOf(e), others) && Logged(log, HandlerOf(e), p.Now())
    requires Reached(p.Now(), e, Some(Claimed), m, maxAttempts) && Queries(w, m.task.scan)
    modifies p
    ensures Went(log, log', e, p.Now(), []) && Reached(p.Now(), e, Some(Claimed), m, maxAttempts)
    ensures starved <==> Starved(p.Now(), m.task.scan, w.tool)
    ensures ReadInput(log', e, m.task.scan, w.tool, starved)
  {
    log' := AwaitOthers(p, e, Claimed, m, others, log);
    var rows := w.answer(p.Now());
    assert Answers(rows, p.Now(), m.task.scan, w.tool.consumes);
    var input := BuildInput(rows, w.tool.consumes, w.tool.needsFile);
    starved := input.None?;
    NothingAnswered(rows, p.Now(), m.task.scan, w.tool);
    assert ReadInputAt(log', |log'.trace|, e, m.task.scan, w.tool, starved);
  }

  lemma NothingAnswered(rows: seq<Found>, s: State, scan: ScanId, tool: Tool)
    requires Answers(rows, s, scan, tool.consumes)
    ensures tool.needsFile && rows == [] <==> Starved(s, scan, tool)
  {
    if rows != [] {
      assert rows[0] in rows;
    }
  }

  /** The tool: its input, its arguments, its run and the outcome. */
  method RunTool(p: Platform, e: nat, m: Message, maxAttempts: int, w: World, others: State -> State, ghost log: Log)
    returns (starved: bool, ghost log': Log)
    requires Fair(HandlerOf(e), others) && Logged(log, HandlerOf(e), p.Now())
    requires Reached(p.Now(), e, Some(Claimed), m, maxAttempts) && GatesPassed(w) && Queries(w, m.task.scan)
    modifies p
    ensures Went(log, log', e, p.Now(), AfterClaim(e, m.attempt, maxAttempts, w, starved)) && e !in p.workers
    ensures ReadInput(log', e, m.task.scan, w.tool, starved)
  {
    ghost var built;
    starved, built := BuildContext(p, e, m, maxAttempts, w, others, log);
    log' := Execution(p, e, m, maxAttempts, w, starved, others, built);
    ContinuesOn(log, built, log', [], AfterClaim(e, m.attempt, maxAttempts, w, starved));
    ReadStays(built, log', e, m.task.scan, w.tool, starved);
  }

  method Execution(p: Platform, e: nat, m: Message, maxAttempts: int, w: World, starved: bool,
                   others: State -> State, ghost log: Log)
    returns (ghost log': Log)
    requires Fair(HandlerOf(e), others) && Logged(log, HandlerOf(e), p.Now())
    requires Reached(p.Now(), e, Some(Claimed), m, maxAttempts) && GatesPassed(w)
    modifies p
    ensures Went(log, log', e, p.Now(), AfterClaim(e, m.attempt, maxAttempts, w, starved)) && e !in p.workers
  {
    if starved || w.contextBreaks || w.arguments.Raises? {
      log' := RunOnce(p, e, Claimed, m, maxAttempts, Stop(e), others, log);
    } else if w.arguments.Refuses? {
      log' := FailBranch(p, e, m, maxAttempts, BadParameters, others, log);
    } else {
      match w.run
      case Breaks => log' := RunOnce(p, e, Claimed, m, maxAttempts, Stop(e), others, log);
      case Reports(types) => log' := Succeed(p, e, m, maxAttempts, types, others, log);
      case Fails =>
        if m.attempt < maxAttempts {
          log' := RetryLater(p, e, m, maxAttempts, others, log);
        } else {
          log' := FailBranch(p, e, m, maxAttempts, Exhausted, others, log);
        }
    }
  }

  /** The gates, then the tool. */
  method Proceed(p: Platform, e: nat, m: Message, maxAttempts: int, w: World, others: State -> State, ghost log: Log)
    returns (starved: bool, ghost log': Log)
    requires Fair(HandlerOf(e), others) && Logged(log, HandlerOf(e), p.Now())
    requires Reached(p.Now(), e, Some(Claimed), m, maxAttempts) && Queries(w, m.task.scan)
    modifies p
    ensures Went(log, log', e, p.Now(), AfterClaim(e, m.attempt, maxAttempts, w, starved)) && e !in p.workers
    ensures GatesPassed(w) ==> ReadInput(log', e, m.task.scan, w.tool, starved)
  {
    starved := false;
    if w.scope.Raises? {
      log' := RunOnce(p, e, Claimed, m, maxAttempts, Stop(e), others, log);
    } else if w.scope.Refuses? {
      log' := FailBranch(p, e, m, maxAttempts, OutOfScope, others, log);
    } else if !w.permitted {
      log' := RefuseTool(p, e, m, maxAttempts, others, log);
    } else {
      starved, log' := RunTool(p, e, m, maxAttempts, w, others, log);
    }
  }

  /** The claim, after the others had their turn. */
  method ClaimDelivery(p: Platform, e: nat, m: Message, others: State -> State, ghost log: Log)
    returns (claimed: Option<int>, ghost log': Log)
    requires Fair(HandlerOf(e), others) && Logged(log, HandlerOf(e), p.Now())
    requires Handling(p.Now(), e, Fetched, m)
    modifies p
    ensures Went(log, log', e, p.Now(), [TryClaim(e)])
    ensures Handling(p.Now(), e, if claimed.Some? then Claimed else Unclaimable, m)
    ensures claimed.Some? ==> p.tasks[m.task].maxAttempts == claimed.value == old(p.tasks[m.task].maxAttempts)
  {
    log' := AwaitOthers(p, e, Fetched, m, others, log);
    ghost var s, waited := p.Now(), log';
    claimed := ClaimTask(p, e);
    log' := OwnStep(waited, HandlerOf(e), s, TryClaim(e), p.Now());
    ContinuesOn(log, waited, log', [], [TryClaim(e)]);
  }

  /** A well-formed delivery: claim the row, then go on or ACK. */
  method ClaimAndProceed(p: Platform, e: nat, m: Message, w: World, others: State -> State, ghost log: Log)
    returns (claimed: Option<int>, starved: bool, ghost log': Log)
    requires Fair(HandlerOf(e), others) && Logged(log, HandlerOf(e), p.Now())
    requires Handling(p.Now(), e, Fetched, m) && Queries(w, m.task.scan)
    modifies p
    ensures Went(log, log', e, p.Now(), [TryClaim(e)] +
              if claimed.Some? then AfterClaim(e, m.attempt, claimed.value, w, starved) else [Ack(e)])
    ensures e !in p.workers && (claimed.Some? ==> claimed.value == old(p.tasks[m.task].maxAttempts))
    ensures claimed.Some? && GatesPassed(w) ==> ReadInput(log', e, m.task.scan, w.tool, starved)
  {
    ghost var first;
    claimed, first := ClaimDelivery(p, e, m, others, log);
    starved := false;
    if claimed.None? {
      log' := RunOnce(p, e, Unclaimable, m, p.tasks[m.task].maxAttempts, Ack(e), others, first);
    } else {
      starved, log' := Proceed(p, e, m, claimed.value, w, others, first);
    }
    ContinuesOn(log, first, log', [TryClaim(e)],
                if claimed.Some? then AfterClaim(e, m.attempt, claimed.value, w, starved) else [Ack(e)]);
  }

  /** The handler of a delivery. Whatever the others do between its statements, the
      whole is an execution of the transition system, in which the handler takes
      exactly the steps of its script and is gone at the end. */
  method Handle(p: Platform, e: nat, w: World, others: State -> State)
    returns (claimed: Option<int>, starved: bool, ghost log: Log)
    requires Fair(HandlerOf(e), others) && Basic(p.Now())
    requires e < |p.stream| && e in p.workers && p.workers[e].Fetched? && Queries(w, p.stream[e].task.scan)
    modifies p
    ensures Logged(log, HandlerOf(e), p.Now()) && log.states[0] == old(p.Now())
    ensures log.own == Script(e, claimed, old(p.stream[e].attempt), w, starved) && e !in p.workers
    ensures claimed.Some? ==> claimed.value == old(p.tasks[p.stream[e].task].maxAttempts)
    ensures w.wellFormed && claimed.Some? && GatesPassed(w) ==>
              ReadInput(log, e, old(p.stream[e].task.scan), w.tool, starved)
    ensures w.wellFormed && claimed.Some? ==>
              CalledFor(log.own, e, old(p.stream[e].attempt), claimed.value, w, starved)
    ensures w.wellFormed && claimed.None? ==> log.own == [TryClaim(e), Ack(e)]
    ensures !w.wellFormed ==> log.own == [Stop(e)]
  {
    var m := p.stream[e];
    ghost var start := NewLog(p.Now());
    claimed, starved := None, false;
    if !w.wellFormed {
      log := RunOnce(p, e, Fetched, m, p.tasks[m.task].maxAttempts, Stop(e), others, start);
    } else {
      claimed, starved, log := ClaimAndProceed(p, e, m, w, others, start);
      if claimed.Some? {
        ScriptCalledFor(e, m.attempt, claimed.value, w, starved);
      }
    }
  }
}
