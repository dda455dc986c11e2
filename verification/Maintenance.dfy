/** The maintenance loops: closing finished scans and reclaiming stale deliveries,
    statement by statement, with everybody else running in between. */
module Maintenance {
  import opened Prelude
  import opened Graph
  import opened Planner
  import opened Lifecycle
  import opened Runtime
  import opened Traces

  // -------------------------------------------------------- closing scans

  function Closer(): Coroutine {
    (a: Action) => ClosingAction(a)
  }

  lemma OtherKeepsClosing(s: State, a: Action)
    requires Enabled(s, a) && !ClosingAction(a)
    ensures Apply(s, a).closing == s.closing
  {
  }

  lemma {:induction false} OthersKeepClosing(states: seq<State>, acts: seq<Action>, n: nat)
    requires Path(states, acts) && n <= |acts| && forall a | a in acts :: !Closer()(a)
    ensures states[n].closing == states[0].closing
  {
    if n > 0 {
      OthersKeepClosing(states, acts, n - 1);
      assert StepAt(states, acts, n - 1) && acts[n - 1] in acts;
      OtherKeepsClosing(states[n - 1], acts[n - 1]);
    }
  }

  method AwaitClosing(p: Platform, others: State -> State, ghost log: Log) returns (ghost log': Log)
    requires Fair(Closer(), others) && Logged(log, Closer(), p.Now())
    modifies p
    ensures Logged(log', Closer(), p.Now()) && Continues(log, log', [])
    ensures p.closing == old(p.closing) && forall scan | scan in p.closing :: scan in p.scans
  {
    ghost var before := p.Now();
    LoggedBasic(log, Closer(), before);
    p.Await(others);
    ghost var states, acts;
    log', states, acts := OthersStep(log, Closer(), before, p.Now());
    OthersKeepClosing(states, acts, |acts|);
    LoggedBasic(log', Closer(), p.Now());
    assert ClosingOk(p.closing, p.scans);
  }

  /** The query for finished scans. */
  method FinishedScans(p: Platform) returns (rows: seq<ScanId>)
    ensures Distinct(rows) && forall scan :: scan in rows <==> Closable(p.Now(), scan)
  {
    rows := [];
    var left := p.scans.Keys;
    while left != {}
      invariant left <= p.scans.Keys && Distinct(rows)
      invariant forall scan | scan in rows :: Closable(p.Now(), scan) && scan !in left
      invariant forall scan | scan in p.scans.Keys - left && Closable(p.Now(), scan) :: scan in rows
      decreases left
    {
      var scan :| scan in left;
      left := left - {scan};
      if Closable(p.Now(), scan) {
        rows := rows + [scan];
      }
    }
  }

  method SelectScan(p: Platform, scan: ScanId)
    requires Enabled(p.Now(), Select(scan))
    modifies p
    ensures Next(old(p.Now()), Select(scan), p.Now())
  {
    ghost var s := p.Now();
    p.closing := p.closing[scan := Selected];
    assert p.Now() == ApplyClosing(s, Select(scan));
  }

  /** The counts of task states, and the status they call for. */
  method TallyScan(p: Platform, scan: ScanId) returns (decided: bool)
    requires Enabled(p.Now(), Tally(scan))
    modifies p
    ensures Next(old(p.Now()), Tally(scan), p.Now())
    ensures if decided then
              scan in p.closing && p.closing == old(p.closing)[scan := p.closing[scan]] && p.closing[scan].Decided?
            else p.closing == old(p.closing) - {scan}
  {
    ghost var s := p.Now();
    var now := p.Now();
    var succeeded := SomeIn(now, scan, Succeeded);
    var failed := SomeIn(now, scan, Failed) || SomeIn(now, scan, Aborted) || SomeIn(now, scan, Dead);
    decided := succeeded || failed;
    if decided {
      p.closing := p.closing[scan := Decided(if succeeded then ScanCompleted else ScanFailed)];
    } else {
      p.closing := p.closing - {scan};
    }
    assert p.Now() == ApplyClosing(s, Tally(scan));
  }

  method CloseScan(p: Platform, scan: ScanId)
    requires Enabled(p.Now(), Close(scan))
    modifies p
    ensures Next(old(p.Now()), Close(scan), p.Now())
  {
    ghost var s := p.Now();
    p.scans := p.scans[scan := p.closing[scan].status];
    p.closing := p.closing - {scan};
    assert p.Now() == ApplyClosing(s, Close(scan));
  }

  function Selects(rows: seq<ScanId>): seq<Action> {
    seq(|rows|, i requires 0 <= i < |rows| => Select(rows[i]))
  }

  function TallySteps(scan: ScanId, decided: bool): seq<Action> {
    [Tally(scan)] + if decided then [Close(scan)] else []
  }

  function Tallies(rows: seq<ScanId>, decided: seq<bool>): seq<Action>
    requires |decided| == |rows|
  {
    if rows == [] then []
    else
      var n := |rows| - 1;
      Tallies(rows[..n], decided[..n]) + TallySteps(rows[n], decided[n])
  }

  /** The finished scans still to be dealt with. */
  ghost predicate Awaiting(closing: map<ScanId, Closing>, rows: seq<ScanId>, from: nat) {
    && from <= |rows|
    && (forall scan :: scan in closing <==> scan in rows[from..])
    && forall scan | scan in closing :: closing[scan].Selected?
  }

  lemma AwaitingNext(closing: map<ScanId, Closing>, rows: seq<ScanId>, i: nat)
    requires Awaiting(closing, rows, i) && i < |rows| && Distinct(rows)
    ensures rows[i] in closing && closing[rows[i]].Selected? && Awaiting(closing - {rows[i]}, rows, i + 1)
  {
    var later := rows[i + 1..];
    assert rows[i..] == [rows[i]] + later;
    forall j | 0 <= j < |later| ensures later[j] != rows[i] {
      assert later[j] == rows[i + 1 + j];
    }
  }

  method SelectAll(p: Platform, ghost log: Log) returns (rows: seq<ScanId>, ghost log': Log)
    requires Logged(log, Closer(), p.Now()) && p.closing == map[]
    modifies p
    ensures Logged(log', Closer(), p.Now()) && Continues(log, log', Selects(rows))
    ensures Distinct(rows) && Awaiting(p.closing, rows, 0)
  {
    rows := FinishedScans(p);
    log' := log;
    for i := 0 to |rows|
      invariant Logged(log', Closer(), p.Now()) && Continues(log, log', Selects(rows[..i]))
      invariant forall scan :: scan in p.closing <==> scan in rows[..i]
      invariant forall scan | scan in p.closing :: p.closing[scan].Selected?
      invariant forall scan | scan in rows :: Closable(p.Now(), scan)
    {
      ghost var s, before := p.Now(), log';
      SelectScan(p, rows[i]);
      log' := OwnStep(before, Closer(), s, Select(rows[i]), p.Now());
      ContinuesOn(log, before, log', Selects(rows[..i]), [Select(rows[i])]);
      assert Selects(rows[..i]) + [Select(rows[i])] == Selects(rows[..i + 1]);
    }
    assert rows[..|rows|] == rows && rows[0..] == rows;
  }

  lemma DropUpdated(closing: map<ScanId, Closing>, scan: ScanId, c: Closing)
    ensures closing[scan := c] - {scan} == closing - {scan}
  {
  }

  method CountOne(p: Platform, scan: ScanId, others: State -> State, ghost log: Log)
    returns (decided: bool, ghost log': Log)
    requires Fair(Closer(), others) && Logged(log, Closer(), p.Now())
    requires scan in p.closing && p.closing[scan].Selected?
    modifies p
    ensures Logged(log', Closer(), p.Now()) && Continues(log, log', [Tally(scan)])
    ensures if decided then scan in p.closing && p.closing[scan].Decided? && p.closing - {scan} == old(p.closing) - {scan}
            else p.closing == old(p.closing) - {scan}
  {
    ghost var waited := AwaitClosing(p, others, log);
    ghost var s := p.Now();
    decided := TallyScan(p, scan);
    log' := OwnStep(waited, Closer(), s, Tally(scan), p.Now());
    ContinuesOn(log, waited, log', [], [Tally(scan)]);
    if decided {
      DropUpdated(s.closing, scan, p.closing[scan]);
    }
  }

  /** One finished scan: count, and close it with the verdict. */
  method CloseOne(p: Platform, scan: ScanId, others: State -> State, ghost log: Log)
    returns (decided: bool, ghost log': Log)
    requires Fair(Closer(), others) && Logged(log, Closer(), p.Now())
    requires scan in p.closing && p.closing[scan].Selected?
    modifies p
    ensures Logged(log', Closer(), p.Now()) && Continues(log, log', TallySteps(scan, decided))
    ensures p.closing == old(p.closing) - {scan}
  {
    ghost var first;
    decided, first := CountOne(p, scan, others, log);
    log' := first;
    if decided {
      log' := CloseDecided(p, scan, others, first);
      ContinuesOn(log, first, log', [Tally(scan)], [Close(scan)]);
    }
  }

  method CloseDecided(p: Platform, scan: ScanId, others: State -> State, ghost log: Log) returns (ghost log': Log)
    requires Fair(Closer(), others) && Logged(log, Closer(), p.Now())
    requires scan in p.closing && p.closing[scan].Decided?
    modifies p
    ensures Logged(log', Closer(), p.Now()) && Continues(log, log', [Close(scan)])
    ensures p.closing == old(p.closing) - {scan}
  {
    ghost var waited := AwaitClosing(p, others, log);
    ghost var s := p.Now();
    CloseScan(p, scan);
    log' := OwnStep(waited, Closer(), s, Close(scan), p.Now());
    ContinuesOn(log, waited, log', [], [Close(scan)]);
  }

  method CloseAll(p: Platform, rows: seq<ScanId>, others: State -> State, ghost log: Log)
    returns (decided: seq<bool>, ghost log': Log)
    requires Fair(Closer(), others) && Logged(log, Closer(), p.Now())
    requires Distinct(rows) && Awaiting(p.closing, rows, 0)
    modifies p
    ensures |decided| == |rows| && Logged(log', Closer(), p.Now()) && Continues(log, log', Tallies(rows, decided))
    ensures p.closing == map[]
  {
    decided, log' := [], log;
    for i := 0 to |rows|
      invariant |decided| == i && Awaiting(p.closing, rows, i)
      invariant Logged(log', Closer(), p.Now()) && Continues(log, log', Tallies(rows[..i], decided))
    {
      AwaitingNext(p.closing, rows, i);
      ghost var before, done := log', decided;
      var one;
      one, log' := CloseOne(p, rows[i], others, before);
      decided := decided + [one];
      ContinuesOn(log, before, log', Tallies(rows[..i], done), TallySteps(rows[i], one));
      assert rows[..i + 1][..i] == rows[..i] && decided[..i] == done;
    }
    assert rows[..|rows|] == rows;
  }

  /** One round of closing: all finished scans are read at once, then each is counted
      and closed, the others running in between. */
  method FinalizeScans(p: Platform, others: State -> State)
    returns (rows: seq<ScanId>, decided: seq<bool>, ghost log: Log)
    requires Fair(Closer(), others) && Basic(p.Now()) && p.closing == map[]
    modifies p
    ensures |decided| == |rows| && Logged(log, Closer(), p.Now()) && log.states[0] == old(p.Now())
    ensures log.own == Selects(rows) + Tallies(rows, decided) && p.closing == map[]
  {
    ghost var first := AwaitClosing(p, others, NewLog(p.Now()));
    ghost var second;
    rows, second := SelectAll(p, first);
    decided, log := CloseAll(p, rows, others, second);
  }

  // ----------------------------------------------------------- reclaiming

  /** The reclaimer whose claims are numbered from `base` on. */
  function Reclaimer(base: nat): Coroutine {
    (a: Action) => ReclaimAction(a) && a.c >= base
  }

  ghost function Held(claims: map<nat, Claim>, base: nat): map<nat, Claim> {
    map c | c in claims && c >= base :: claims[c]
  }

  lemma OtherKeepsHeld(s: State, a: Action, base: nat)
    requires Enabled(s, a) && !Reclaimer(base)(a)
    ensures Held(Apply(s, a).claims, base) == Held(s.claims, base)
  {
    if ReclaimAction(a) {
      assert Apply(s, a) == ApplyReclaim(s, a);
    } else {
      assert Apply(s, a).claims == s.claims;
    }
  }

  lemma {:induction false} OthersKeepHeld(states: seq<State>, acts: seq<Action>, n: nat, base: nat)
    requires Path(states, acts) && n <= |acts| && forall a | a in acts :: !Reclaimer(base)(a)
    ensures Held(states[n].claims, base) == Held(states[0].claims, base)
  {
    if n > 0 {
      OthersKeepHeld(states, acts, n - 1, base);
      assert StepAt(states, acts, n - 1) && acts[n - 1] in acts;
      OtherKeepsHeld(states[n - 1], acts[n - 1], base);
    }
  }

  // What a sweep is for: the entry is off the pending set, its message sent again.

  /** The message with its attempt counted up stands later in the stream. */
  ghost predicate SentAgain(s: State, e: nat) {
    && e < |s.stream|
    && exists f :: e < f < |s.stream| && s.stream[f] == Message(s.stream[e].task, s.stream[e].attempt + 1)
  }

  ghost predicate Replaced(s: State, e: nat) {
    SentAgain(s, e) && e < s.cursor && e !in s.pel
  }

  ghost predicate KeepsReplaced(s: State, s': State) {
    s.stream <= s'.stream && forall e | Replaced(s, e) :: Replaced(s', e)
  }

  lemma SentAgainStays(s: State, s': State, e: nat)
    requires SentAgain(s, e) && s.stream <= s'.stream
    ensures SentAgain(s', e)
  {
    var f :| e < f < |s.stream| && s.stream[f] == Message(s.stream[e].task, s.stream[e].attempt + 1);
    assert s'.stream[f] == s.stream[f] && s'.stream[e] == s.stream[e];
  }

  lemma PendingMoves(s: State, a: Action)
    requires Enabled(s, a)
    ensures s.cursor <= Apply(s, a).cursor && Apply(s, a).pel <= s.pel + {s.cursor}
  {
    if SubmitAction(a) {
      assert Apply(s, a) == ApplySubmit(s, a);
    } else if DispatchAction(a) {
      assert Apply(s, a) == ApplyDispatch(s, a);
    } else if ClosingAction(a) {
      assert Apply(s, a) == ApplyClosing(s, a);
    } else if ReclaimAction(a) {
      PendingReclaim(s, a);
      assert Apply(s, a) == ApplyReclaim(s, a);
    } else {
      PendingWorker(s, a);
      assert Apply(s, a) == ApplyWorker(s, a);
    }
  }

  lemma PendingReclaim(s: State, a: Action)
    requires Enabled(s, a) && ReclaimAction(a)
    ensures ApplyReclaim(s, a).pel <= s.pel
  {
  }

  lemma PendingWorker(s: State, a: Action)
    requires Enabled(s, a) && WorkerAction(a)
    ensures s.cursor <= ApplyWorker(s, a).cursor && ApplyWorker(s, a).pel <= s.pel + {s.cursor}
  {
  }

  lemma StepKeepsReplaced(s: State, a: Action, s': State)
    requires Next(s, a, s')
    ensures KeepsReplaced(s, s')
  {
    GrowsStep(s, a);
    PendingMoves(s, a);
    forall e | Replaced(s, e) ensures Replaced(s', e) {
      SentAgainStays(s, s', e);
    }
  }

  lemma {:induction false} PathKeepsReplaced(states: seq<State>, acts: seq<Action>, n: nat)
    requires Path(states, acts) && n <= |acts|
    ensures KeepsReplaced(states[0], states[n])
  {
    if n > 0 {
      PathKeepsReplaced(states, acts, n - 1);
      RunStep(states, acts, n - 1);
      StepKeepsReplaced(states[n - 1], acts[n - 1], states[n]);
    }
  }

  method AwaitReclaiming(p: Platform, base: nat, others: State -> State, ghost log: Log) returns (ghost log': Log)
    requires Fair(Reclaimer(base), others) && Logged(log, Reclaimer(base), p.Now())
    modifies p
    ensures Logged(log', Reclaimer(base), p.Now()) && Continues(log, log', [])
    ensures Held(p.claims, base) == old(Held(p.claims, base))
    ensures QueueOk(|p.stream|, p.cursor, p.pel, p.workers, p.claims) && KeepsReplaced(old(p.Now()), p.Now())
  {
    ghost var before := p.Now();
    LoggedBasic(log, Reclaimer(base), before);
    p.Await(others);
    ghost var states, acts;
    log', states, acts := OthersStep(log, Reclaimer(base), before, p.Now());
    OthersKeepHeld(states, acts, |acts|, base);
    PathKeepsReplaced(states, acts, |acts|);
    LoggedBasic(log', Reclaimer(base), p.Now());
  }

  method GrabEntry(p: Platform, c: nat, entry: nat)
    requires Enabled(p.Now(), Grab(c, entry))
    modifies p
    ensures Next(old(p.Now()), Grab(c, entry), p.Now()) && p.claims == old(p.claims)[c := Claim(entry, false)]
    ensures p.pel == old(p.pel) && p.stream == old(p.stream)
  {
    ghost var s := p.Now();
    p.claims := p.claims[c := Claim(entry, false)];
    assert p.Now() == ApplyReclaim(s, Grab(c, entry));
  }

  lemma RequeueSends(s: State, c: nat, s': State)
    requires QueueOk(|s.stream|, s.cursor, s.pel, s.workers, s.claims) && Next(s, Requeue(c), s')
    ensures SentAgain(s', s.claims[c].entry)
  {
    var e := s.claims[c].entry;
    assert s' == ApplyReclaim(s, Requeue(c));
    assert s'.stream[|s.stream|] == Message(s'.stream[e].task, s'.stream[e].attempt + 1);
  }

  lemma ReleaseReplaces(s: State, c: nat, s': State)
    requires QueueOk(|s.stream|, s.cursor, s.pel, s.workers, s.claims) && Next(s, Release(c), s')
    requires SentAgain(s, s.claims[c].entry)
    ensures Replaced(s', s.claims[c].entry)
  {
    assert s' == ApplyReclaim(s, Release(c));
    SentAgainStays(s, s', s.claims[c].entry);
  }

  /** The message again, with its attempt counted up. */
  method RequeueEntry(p: Platform, c: nat)
    requires Enabled(p.Now(), Requeue(c)) && QueueOk(|p.stream|, p.cursor, p.pel, p.workers, p.claims)
    modifies p
    ensures Next(old(p.Now()), Requeue(c), p.Now())
    ensures p.claims == old(p.claims)[c := Claim(old(p.claims)[c].entry, true)]
    ensures SentAgain(p.Now(), old(p.claims)[c].entry) && KeepsReplaced(old(p.Now()), p.Now())
  {
    ghost var s := p.Now();
    var m := p.stream[p.claims[c].entry];
    var _ := p.Enqueue(Message(m.task, m.attempt + 1));
    p.claims := p.claims[c := Claim(p.claims[c].entry, true)];
    assert p.Now() == ApplyReclaim(s, Requeue(c));
    StepKeepsReplaced(s, Requeue(c), p.Now());
    RequeueSends(s, c, p.Now());
  }

  method ReleaseEntry(p: Platform, c: nat)
    requires Enabled(p.Now(), Release(c)) && QueueOk(|p.stream|, p.cursor, p.pel, p.workers, p.claims)
    requires SentAgain(p.Now(), p.claims[c].entry)
    modifies p
    ensures Next(old(p.Now()), Release(c), p.Now()) && p.claims == old(p.claims) - {c}
    ensures Replaced(p.Now(), old(p.claims)[c].entry) && KeepsReplaced(old(p.Now()), p.Now())
  {
    ghost var s := p.Now();
    p.AckEntry(p.claims[c].entry);
    p.claims := p.claims - {c};
    assert p.Now() == ApplyReclaim(s, Release(c));
    StepKeepsReplaced(s, Release(c), p.Now());
    ReleaseReplaces(s, c, p.Now());
  }

  /** Entries i..n of a page of stale entries are held, none of them re-sent yet. */
  ghost predicate HoldsPage(held: map<nat, Claim>, base: nat, page: seq<nat>, i: nat, n: nat) {
    && i <= n <= |page|
    && (forall c: nat :: c in held <==> base + i <= c < base + n)
    && forall c: nat | c in held :: held[c] == Claim(page[c - base], false)
  }

  lemma PageNext(held: map<nat, Claim>, base: nat, page: seq<nat>, i: nat, n: nat, claim: Claim)
    requires HoldsPage(held, base, page, i, n) && i < n
    ensures HoldsPage(held[base + i := claim] - {base + i}, base, page, i + 1, n)
  {
  }

  lemma PageDone(held: map<nat, Claim>, base: nat, page: seq<nat>)
    requires HoldsPage(held, base, page, |page|, |page|)
    ensures held == map[]
  {
  }

  function Grabs(base: nat, page: seq<nat>): seq<Action> {
    seq(|page|, i requires 0 <= i < |page| => Grab(base + i, page[i]))
  }

  /** Every entry is re-sent before it is ACKed. */
  function Redeliveries(base: nat, n: nat): seq<Action> {
    if n == 0 then [] else Redeliveries(base, n - 1) + [Requeue(base + n - 1), Release(base + n - 1)]
  }

  function PageSteps(base: nat, page: seq<nat>): seq<Action> {
    Grabs(base, page) + Redeliveries(base, |page|)
  }

  function PagesSteps(base: nat, pages: seq<seq<nat>>): seq<Action> {
    if pages == [] then [] else PagesSteps(base, pages[..|pages| - 1]) + PageSteps(base, pages[|pages| - 1])
  }

  function Total(pages: seq<seq<nat>>): nat {
    if pages == [] then 0 else Total(pages[..|pages| - 1]) + |pages[|pages| - 1]|
  }

  /** Each stale delivery is grabbed, sent again and ACKed. */
  lemma {:induction false} TotalSteps(base: nat, pages: seq<seq<nat>>)
    ensures |PagesSteps(base, pages)| == 3 * Total(pages)
  {
    if pages != [] {
      TotalSteps(base, pages[..|pages| - 1]);
      PageLength(base, pages[|pages| - 1], |pages[|pages| - 1]|);
    }
  }

  lemma {:induction false} PageLength(base: nat, page: seq<nat>, n: nat)
    ensures |Redeliveries(base, n)| == 2 * n && |Grabs(base, page)| == |page|
  {
    if n > 0 {
      PageLength(base, page, n - 1);
    }
  }

  method GrabNext(p: Platform, base: nat, page: seq<nat>, i: nat, ghost log: Log) returns (ghost log': Log)
    requires Logged(log, Reclaimer(base), p.Now()) && i < |page|
    requires HoldsPage(Held(p.claims, base), base, page, 0, i) && page[i] in p.pel && page[i] < |p.stream|
    modifies p
    ensures Logged(log', Reclaimer(base), p.Now()) && Continues(log, log', [Grab(base + i, page[i])])
    ensures HoldsPage(Held(p.claims, base), base, page, 0, i + 1) && p.pel == old(p.pel) && p.stream == old(p.stream)
    ensures KeepsReplaced(old(p.Now()), p.Now())
  {
    ghost var s, before := p.Now(), p.claims;
    assert base + i !in Held(before, base);
    GrabEntry(p, base + i, page[i]);
    log' := OwnStep(log, Reclaimer(base), s, Grab(base + i, page[i]), p.Now());
    HeldNext(before, base, page, i);
    StepKeepsReplaced(s, Grab(base + i, page[i]), p.Now());
  }

  lemma HeldNext(claims: map<nat, Claim>, base: nat, page: seq<nat>, i: nat)
    requires i < |page| && HoldsPage(Held(claims, base), base, page, 0, i)
    ensures HoldsPage(Held(claims[base + i := Claim(page[i], false)], base), base, page, 0, i + 1)
  {
    HeldUpdates(claims, base, base + i, Claim(page[i], false));
  }

  lemma HeldUpdates(claims: map<nat, Claim>, base: nat, c: nat, claim: Claim)
    requires c >= base
    ensures Held(claims[c := claim], base) == Held(claims, base)[c := claim]
    ensures Held(claims - {c}, base) == Held(claims, base) - {c}
  {
  }

  method GrabPage(p: Platform, base: nat, page: seq<nat>, ghost log: Log) returns (ghost log': Log)
    requires Logged(log, Reclaimer(base), p.Now()) && Held(p.claims, base) == map[]
    requires forall e | e in page :: e in p.pel && e < |p.stream|
    modifies p
    ensures Logged(log', Reclaimer(base), p.Now()) && Continues(log, log', Grabs(base, page))
    ensures HoldsPage(Held(p.claims, base), base, page, 0, |page|) && KeepsReplaced(old(p.Now()), p.Now())
  {
    log' := log;
    for i := 0 to |page|
      invariant Logged(log', Reclaimer(base), p.Now()) && Continues(log, log', Grabs(base, page[..i]))
      invariant HoldsPage(Held(p.claims, base), base, page, 0, i)
      invariant p.pel == old(p.pel) && p.stream == old(p.stream) && KeepsReplaced(old(p.Now()), p.Now())
    {
      ghost var before := log';
      log' := GrabNext(p, base, page, i, before);
      ContinuesOn(log, before, log', Grabs(base, page[..i]), [Grab(base + i, page[i])]);
      assert Grabs(base, page[..i]) + [Grab(base + i, page[i])] == Grabs(base, page[..i + 1]);
    }
    assert page[..|page|] == page;
  }

  method LogRequeue(p: Platform, base: nat, c: nat, ghost log: Log) returns (ghost log': Log)
    requires Logged(log, Reclaimer(base), p.Now()) && c >= base && Enabled(p.Now(), Requeue(c))
    requires QueueOk(|p.stream|, p.cursor, p.pel, p.workers, p.claims)
    modifies p
    ensures Logged(log', Reclaimer(base), p.Now()) && Continues(log, log', [Requeue(c)])
    ensures p.claims == old(p.claims)[c := Claim(old(p.claims)[c].entry, true)]
    ensures SentAgain(p.Now(), old(p.claims)[c].entry) && KeepsReplaced(old(p.Now()), p.Now())
  {
    ghost var s := p.Now();
    RequeueEntry(p, c);
    log' := OwnStep(log, Reclaimer(base), s, Requeue(c), p.Now());
  }

  method DoRequeue(p: Platform, base: nat, c: nat, entry: nat, others: State -> State, ghost log: Log)
    returns (ghost log': Log)
    requires Fair(Reclaimer(base), others) && Logged(log, Reclaimer(base), p.Now())
    requires c >= base && c in Held(p.claims, base) && Held(p.claims, base)[c] == Claim(entry, false)
    modifies p
    ensures Logged(log', Reclaimer(base), p.Now()) && Continues(log, log', [Requeue(c)])
    ensures Held(p.claims, base) == old(Held(p.claims, base))[c := Claim(entry, true)]
    ensures SentAgain(p.Now(), entry) && KeepsReplaced(old(p.Now()), p.Now())
  {
    ghost var waited := AwaitReclaiming(p, base, others, log);
    ghost var before := p.claims;
    assert c in before && before[c] == Claim(entry, false);
    log' := LogRequeue(p, base, c, waited);
    ContinuesOn(log, waited, log', [], [Requeue(c)]);
    HeldUpdates(before, base, c, Claim(entry, true));
  }

  method LogRelease(p: Platform, base: nat, c: nat, ghost log: Log) returns (ghost log': Log)
    requires Logged(log, Reclaimer(base), p.Now()) && c >= base && Enabled(p.Now(), Release(c))
    requires QueueOk(|p.stream|, p.cursor, p.pel, p.workers, p.claims) && SentAgain(p.Now(), p.claims[c].entry)
    modifies p
    ensures Logged(log', Reclaimer(base), p.Now()) && Continues(log, log', [Release(c)])
    ensures p.claims == old(p.claims) - {c}
    ensures Replaced(p.Now(), old(p.claims)[c].entry) && KeepsReplaced(old(p.Now()), p.Now())
  {
    ghost var s := p.Now();
    ReleaseEntry(p, c);
    log' := OwnStep(log, Reclaimer(base), s, Release(c), p.Now());
  }

  method DoRelease(p: Platform, base: nat, c: nat, entry: nat, others: State -> State, ghost log: Log)
    returns (ghost log': Log)
    requires Fair(Reclaimer(base), others) && Logged(log, Reclaimer(base), p.Now())
    requires c >= base && c in Held(p.claims, base) && Held(p.claims, base)[c] == Claim(entry, true)
    requires SentAgain(p.Now(), entry)
    modifies p
    ensures Logged(log', Reclaimer(base), p.Now()) && Continues(log, log', [Release(c)])
    ensures Held(p.claims, base) == old(Held(p.claims, base)) - {c}
    ensures Replaced(p.Now(), entry) && KeepsReplaced(old(p.Now()), p.Now())
  {
    ghost var waited := AwaitReclaiming(p, base, others, log);
    ghost var before := p.claims;
    SentAgainStays(old(p.Now()), p.Now(), entry);
    assert c in before && before[c] == Claim(entry, true);
    log' := LogRelease(p, base, c, waited);
    ContinuesOn(log, waited, log', [], [Release(c)]);
    HeldUpdates(before, base, c, Claim(entry, true));
  }

  method RedeliverNext(p: Platform, base: nat, page: seq<nat>, i: nat, others: State -> State, ghost log: Log)
    returns (ghost log': Log)
    requires Fair(Reclaimer(base), others) && Logged(log, Reclaimer(base), p.Now())
    requires i < |page| && HoldsPage(Held(p.claims, base), base, page, i, |page|)
    modifies p
    ensures Logged(log', Reclaimer(base), p.Now())
    ensures Continues(log, log', [Requeue(base + i), Release(base + i)])
    ensures HoldsPage(Held(p.claims, base), base, page, i + 1, |page|)
    ensures Replaced(p.Now(), page[i]) && KeepsReplaced(old(p.Now()), p.Now())
  {
    ghost var held := Held(p.claims, base);
    ghost var sent := DoRequeue(p, base, base + i, page[i], others, log);
    log' := DoRelease(p, base, base + i, page[i], others, sent);
    ContinuesOn(log, sent, log', [Requeue(base + i)], [Release(base + i)]);
    PageNext(held, base, page, i, |page|, Claim(page[i], true));
  }

  method RedeliverPage(p: Platform, base: nat, page: seq<nat>, others: State -> State, ghost log: Log)
    returns (ghost log': Log)
    requires Fair(Reclaimer(base), others) && Logged(log, Reclaimer(base), p.Now())
    requires HoldsPage(Held(p.claims, base), base, page, 0, |page|)
    modifies p
    ensures Logged(log', Reclaimer(base), p.Now()) && Continues(log, log', Redeliveries(base, |page|))
    ensures Held(p.claims, base) == map[]
    ensures (forall e | e in page :: Replaced(p.Now(), e)) && KeepsReplaced(old(p.Now()), p.Now())
  {
    log' := log;
    for i := 0 to |page|
      invariant Logged(log', Reclaimer(base), p.Now()) && Continues(log, log', Redeliveries(base, i))
      invariant HoldsPage(Held(p.claims, base), base, page, i, |page|)
      invariant (forall k | 0 <= k < i :: Replaced(p.Now(), page[k])) && KeepsReplaced(old(p.Now()), p.Now())
    {
      ghost var before := log';
      log' := RedeliverNext(p, base, page, i, others, before);
      ContinuesOn(log, before, log', Redeliveries(base, i), [Requeue(base + i), Release(base + i)]);
    }
    PageDone(Held(p.claims, base), base, page);
  }

  /** A sweep over stale deliveries. `pages` says what the queue returns as stale at
      each read; the sweep ends at an empty page or when the cursor is through. */
  method ReclaimStale(p: Platform, base: nat, pages: seq<State -> seq<nat>>, others: State -> State)
    returns (reclaimed: nat, taken: seq<seq<nat>>, ghost log: Log)
    requires Fair(Reclaimer(base), others) && Basic(p.Now()) && forall c | c in p.claims :: c < base
    requires forall i, s | 0 <= i < |pages| :: forall e | e in pages[i](s) :: e in s.pel
    modifies p
    ensures Logged(log, Reclaimer(base), p.Now()) && log.states[0] == old(p.Now())
    ensures log.own == PagesSteps(base, taken) && |log.own| == 3 * reclaimed
    ensures Held(p.claims, base) == map[]
    ensures forall page, e | page in taken && e in page :: Replaced(p.Now(), e)
  {
    ghost var start := NewLog(p.Now());
    reclaimed, taken, log := 0, [], start;
    for i := 0 to |pages|
      invariant Logged(log, Reclaimer(base), p.Now()) && Continues(start, log, PagesSteps(base, taken))
      invariant reclaimed == Total(taken) && Held(p.claims, base) == map[]
      invariant forall page, e | page in taken && e in page :: Replaced(p.Now(), e)
    {
      ghost var before := log;
      var page;
      page, log := ReclaimPage(p, base, pages[i], others, before);
      ContinuesOn(start, before, log, PagesSteps(base, taken), PageSteps(base, page));
      assert (taken + [page])[..|taken|] == taken;
      taken := taken + [page];
      reclaimed := reclaimed + |page|;
      if page == [] {
        break;
      }
    }
    TotalSteps(base, taken);
  }

  method ReclaimPage(p: Platform, base: nat, stale: State -> seq<nat>, others: State -> State, ghost log: Log)
    returns (page: seq<nat>, ghost log': Log)
    requires Fair(Reclaimer(base), others) && Logged(log, Reclaimer(base), p.Now())
    requires Held(p.claims, base) == map[] && forall s, e | e in stale(s) :: e in s.pel
    modifies p
    ensures Logged(log', Reclaimer(base), p.Now()) && Continues(log, log', PageSteps(base, page))
    ensures Held(p.claims, base) == map[]
    ensures (forall e | e in page :: Replaced(p.Now(), e)) && KeepsReplaced(old(p.Now()), p.Now())
  {
    ghost var grabbed;
    page, grabbed := TakePage(p, base, stale, others, log);
    log' := RedeliverPage(p, base, page, others, grabbed);
    ContinuesOn(log, grabbed, log', Grabs(base, page), Redeliveries(base, |page|));
  }

  /** The auto-claim: a page of stale entries passes to this reclaimer at once. */
  method TakePage(p: Platform, base: nat, stale: State -> seq<nat>, others: State -> State, ghost log: Log)
    returns (page: seq<nat>, ghost log': Log)
    requires Fair(Reclaimer(base), others) && Logged(log, Reclaimer(base), p.Now())
    requires Held(p.claims, base) == map[] && forall s, e | e in stale(s) :: e in s.pel
    modifies p
    ensures Logged(log', Reclaimer(base), p.Now()) && Continues(log, log', Grabs(base, page))
    ensures HoldsPage(Held(p.claims, base), base, page, 0, |page|) && KeepsReplaced(old(p.Now()), p.Now())
  {
    ghost var waited := AwaitReclaiming(p, base, others, log);
    page := stale(p.Now());
    log' := GrabPage(p, base, page, waited);
    ContinuesOn(log, waited, log', [], Grabs(base, page));
  }
}
