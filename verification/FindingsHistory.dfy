/** The findings table against the history of calls that produced it: which rows
    there are, which of them are new, what was counted and what can be reported. */
module FindingsHistory {
  import opened Prelude
  import opened Identity
  import opened Findings

  /** One committed or failed recording, or one triage decision. */
  datatype Op =
    | Record(b: Batch, findings: seq<Finding>, commits: bool)
    | Triage(key: Key, decision: Validation)

  ghost function Step(table: Table, op: Op): Table {
    match op
    case Record(b, findings, commits) => if commits then RecordAll(table, b, Identities(b.program, findings)) else table
    case Triage(key, decision) => Triaged(table, key, decision)
  }

  /** The `new_count` that the call returns. */
  ghost function NewCount(table: Table, op: Op): nat {
    if op.Record? && op.commits then NewByAll(table, op.b, Identities(op.b.program, op.findings)) else 0
  }

  ghost function After(ops: seq<Op>): Table {
    if ops == [] then map[] else Step(After(ops[..|ops| - 1]), ops[|ops| - 1])
  }

  ghost function NewTotal(ops: seq<Op>): nat {
    if ops == [] then 0 else NewTotal(ops[..|ops| - 1]) + NewCount(After(ops[..|ops| - 1]), ops[|ops| - 1])
  }

  // ------------------------------------------------- reading the history

  ghost predicate Shows(op: Op, program: ProgramId, fp: Fingerprint) {
    op.Record? && op.commits && op.b.program == program && Mentions(Identities(program, op.findings), fp)
  }

  /** A call shows an entity iff one of its findings describes it. */
  lemma ShowsIff(op: Op, program: ProgramId, fp: Fingerprint)
    ensures Shows(op, program, fp) <==>
            op.Record? && op.commits && op.b.program == program && DescribedIn(program, op.findings, fp)
  {
    if op.Record? {
      var es := Identities(program, op.findings);
      var picks := IdentityPicks(program, op.findings);
      MentionsIff(program, op.findings, es, picks, fp);
    }
  }

  ghost predicate DescribedIn(program: ProgramId, fs: seq<Finding>, fp: Fingerprint) {
    exists f, e :: f in fs && Describes(program, f, e) && e.fp == fp
  }

  lemma MentionsIff(program: ProgramId, fs: seq<Finding>, es: seq<Entity>, picks: seq<nat>, fp: Fingerprint)
    requires IdentitiesFrom(program, fs, es, picks)
    ensures Mentions(es, fp) <==> DescribedIn(program, fs, fp)
  {
    if Mentions(es, fp) {
      var i :| 0 <= i < |es| && es[i].fp == fp;
      assert fs[picks[i]] in fs && Describes(program, fs[picks[i]], es[i]);
    }
    if DescribedIn(program, fs, fp) {
      var f, e :| f in fs && Describes(program, f, e) && e.fp == fp;
      var j: nat :| j < |fs| && fs[j] == f;
      DescribedNamed(program, f, e);
      var i :| 0 <= i < |picks| && picks[i] == j;
      DescribesOne(program, f, e, es[i]);
    }
  }

  ghost predicate ShownBy(ops: seq<Op>, program: ProgramId, fp: Fingerprint) {
    exists i :: 0 <= i < |ops| && Shows(ops[i], program, fp)
  }

  /** Some call showed the entity in that scan. */
  ghost predicate RecordedIn(ops: seq<Op>, k: Key) {
    exists i :: 0 <= i < |ops| && Shows(ops[i], k.program, k.fp) && ops[i].b.scan == k.scan
  }

  /** The very first call that showed the entity was for that scan. */
  ghost predicate FirstIn(ops: seq<Op>, k: Key) {
    exists i :: 0 <= i < |ops| && Shows(ops[i], k.program, k.fp) && ops[i].b.scan == k.scan &&
      !ShownBy(ops[..i], k.program, k.fp)
  }

  ghost predicate Matches(table: Table, ops: seq<Op>) {
    forall k :: (k in table <==> RecordedIn(ops, k)) && (k in table ==> (table[k].isNew <==> FirstIn(ops, k)))
  }

  lemma HistoryNext(ops: seq<Op>, op: Op, k: Key)
    ensures ShownBy(ops + [op], k.program, k.fp) <==> ShownBy(ops, k.program, k.fp) || Shows(op, k.program, k.fp)
    ensures RecordedIn(ops + [op], k) <==>
            RecordedIn(ops, k) || (Shows(op, k.program, k.fp) && op.b.scan == k.scan)
    ensures FirstIn(ops + [op], k) <==>
            FirstIn(ops, k) || (Shows(op, k.program, k.fp) && op.b.scan == k.scan && !ShownBy(ops, k.program, k.fp))
  {
    var more := ops + [op];
    assert more[|ops|] == op && more[..|ops|] == ops;
    assert forall i | 0 <= i < |ops| :: more[i] == ops[i] && more[..i] == ops[..i];
  }

  lemma SeenIsShown(table: Table, ops: seq<Op>, program: ProgramId, fp: Fingerprint)
    requires Matches(table, ops)
    ensures Seen(table, program, fp) <==> ShownBy(ops, program, fp)
  {
    if Seen(table, program, fp) {
      var k :| k in table && k.program == program && k.fp == fp;
      assert RecordedIn(ops, k);
    }
    if ShownBy(ops, program, fp) {
      var i :| 0 <= i < |ops| && Shows(ops[i], program, fp);
      assert RecordedIn(ops, Key(program, fp, ops[i].b.scan));
    }
  }

  lemma BatchMatches(table: Table, ops: seq<Op>, b: Batch, findings: seq<Finding>, after: Table)
    requires Matches(table, ops) && IsBatchOf(table, b, Identities(b.program, findings), after)
    ensures Matches(after, ops + [Record(b, findings, true)])
  {
    var op := Record(b, findings, true);
    forall k
      ensures (k in after <==> RecordedIn(ops + [op], k)) && (k in after ==> (after[k].isNew <==> FirstIn(ops + [op], k)))
    {
      HistoryNext(ops, op, k);
      SeenIsShown(table, ops, k.program, k.fp);
    }
  }

  /** An operation that shows nothing and leaves the rows' newness alone. */
  lemma QuietMatches(table: Table, ops: seq<Op>, op: Op, after: Table)
    requires Matches(table, ops) && !(op.Record? && op.commits)
    requires after.Keys == table.Keys && forall k | k in table :: after[k].isNew == table[k].isNew
    ensures Matches(after, ops + [op])
  {
    forall k
      ensures (k in after <==> RecordedIn(ops + [op], k)) && (k in after ==> (after[k].isNew <==> FirstIn(ops + [op], k)))
    {
      HistoryNext(ops, op, k);
    }
  }

  lemma MatchesNext(table: Table, ops: seq<Op>, op: Op)
    requires Matches(table, ops)
    ensures Matches(Step(table, op), ops + [op])
  {
    if op.Record? && op.commits {
      RecordAllIsBatch(table, op.b, Identities(op.b.program, op.findings));
      BatchMatches(table, ops, op.b, op.findings, Step(table, op));
      assert op == Record(op.b, op.findings, true);
    } else {
      QuietMatches(table, ops, op, Step(table, op));
    }
  }

  /** The table holds exactly the recorded (program, entity, scan) triples, and a row
      is new exactly if it is from the first scan that ever showed the entity. */
  lemma {:induction false} TableIsHistory(ops: seq<Op>)
    ensures Matches(After(ops), ops)
  {
    if ops != [] {
      var init, last := ops[..|ops| - 1], ops[|ops| - 1];
      TableIsHistory(init);
      MatchesNext(After(init), init, last);
      assert ops == init + [last];
    }
  }

  lemma FirstUnique(ops: seq<Op>, k: Key, l: Key)
    requires FirstIn(ops, k) && FirstIn(ops, l) && k.program == l.program && k.fp == l.fp
    ensures k == l
  {
    var i :| 0 <= i < |ops| && Shows(ops[i], k.program, k.fp) && ops[i].b.scan == k.scan &&
      !ShownBy(ops[..i], k.program, k.fp);
    var j :| 0 <= j < |ops| && Shows(ops[j], k.program, k.fp) && ops[j].b.scan == l.scan &&
      !ShownBy(ops[..j], k.program, k.fp);
    ShownBefore(ops, i, j, k);
    ShownBefore(ops, j, i, k);
  }

  lemma ShownBefore(ops: seq<Op>, i: nat, j: nat, k: Key)
    requires i < |ops| && j < |ops| && Shows(ops[i], k.program, k.fp)
    ensures i < j ==> ShownBy(ops[..j], k.program, k.fp)
  {
    assert i < j ==> ops[..j][i] == ops[i];
  }

  /** Each entity present has exactly one new row. */
  lemma OneNewRow(ops: seq<Op>, program: ProgramId, fp: Fingerprint) returns (k: Key)
    requires Seen(After(ops), program, fp)
    ensures k in After(ops) && k.program == program && k.fp == fp && After(ops)[k].isNew && FirstIn(ops, k)
    ensures forall l | l in After(ops) && l.program == program && l.fp == fp && After(ops)[l].isNew :: l == k
  {
    TableIsHistory(ops);
    SeenIsShown(After(ops), ops, program, fp);
    var i := FirstShow(ops, program, fp);
    k := Key(program, fp, ops[i].b.scan);
    assert RecordedIn(ops, k) && FirstIn(ops, k);
    forall l | l in After(ops) && l.program == program && l.fp == fp && After(ops)[l].isNew ensures l == k {
      FirstUnique(ops, k, l);
    }
  }

  lemma {:induction false} FirstShow(ops: seq<Op>, program: ProgramId, fp: Fingerprint) returns (i: nat)
    requires ShownBy(ops, program, fp)
    ensures i < |ops| && Shows(ops[i], program, fp) && !ShownBy(ops[..i], program, fp)
  {
    i :| i < |ops| && Shows(ops[i], program, fp);
    if ShownBy(ops[..i], program, fp) {
      var j := FirstShow(ops[..i], program, fp);
      assert ops[..i][j] == ops[j] && ops[..i][..j] == ops[..j];
      i := j;
    }
  }

  // ------------------------------------------------------------ new counts

  ghost function EntitiesOf(table: Table): set<(ProgramId, Fingerprint)> {
    set k | k in table :: (k.program, k.fp)
  }

  lemma {:induction false} PairsSize(program: ProgramId, fps: set<Fingerprint>)
    ensures |set fp | fp in fps :: (program, fp)| == |fps|
  {
    var pairs := set fp | fp in fps :: (program, fp);
    if fps != {} {
      var fp :| fp in fps;
      PairsSize(program, fps - {fp});
      assert pairs == (set x | x in fps - {fp} :: (program, x)) + {(program, fp)};
    }
  }

  lemma BatchAddsFresh(table: Table, b: Batch, es: seq<Entity>, after: Table)
    requires IsBatchOf(table, b, es, after)
    ensures |EntitiesOf(after)| == |EntitiesOf(table)| + |Fresh(table, b.program, es)|
  {
    var added := Fresh(table, b.program, es);
    var pairs := set fp | fp in added :: (b.program, fp);
    PairsSize(b.program, added);
    forall x ensures x in EntitiesOf(after) <==> x in EntitiesOf(table) || (x.0 == b.program && x.1 in added) {
      EntityAfter(table, b, es, after, x);
    }
    forall x | x in pairs ensures x !in EntitiesOf(table) {
      FreshMentions(table, b.program, es, x.1);
      SeenInEntities(table, x);
    }
    assert EntitiesOf(after) == EntitiesOf(table) + pairs;
  }

  lemma EntityAfter(table: Table, b: Batch, es: seq<Entity>, after: Table, x: (ProgramId, Fingerprint))
    requires IsBatchOf(table, b, es, after)
    ensures x in EntitiesOf(after) <==>
            x in EntitiesOf(table) || (x.0 == b.program && x.1 in Fresh(table, b.program, es))
  {
    FreshMentions(table, b.program, es, x.1);
    SeenInEntities(table, x);
    SeenInEntities(after, x);
    if x.0 == b.program {
      SeenAfter(table, b, es, after, x.1);
    } else if x in EntitiesOf(after) {
      var k :| k in after && (k.program, k.fp) == x;
      assert k in table;
    }
  }

  lemma SeenInEntities(table: Table, x: (ProgramId, Fingerprint))
    ensures x in EntitiesOf(table) <==> Seen(table, x.0, x.1)
  {
  }

  lemma CountNext(table: Table, op: Op)
    ensures |EntitiesOf(Step(table, op))| == |EntitiesOf(table)| + NewCount(table, op)
  {
    if op.Record? && op.commits {
      var es := Identities(op.b.program, op.findings);
      RecordAllIsBatch(table, op.b, es);
      BatchAddsFresh(table, op.b, es, RecordAll(table, op.b, es));
      NewByAllCounts(table, op.b, es);
    } else {
      assert EntitiesOf(Step(table, op)) == EntitiesOf(table);
    }
  }

  /** The returned `new_count`s add up to the number of distinct entities. */
  lemma {:induction false} NewCountsAddUp(ops: seq<Op>)
    ensures NewTotal(ops) == |EntitiesOf(After(ops))|
  {
    if ops != [] {
      NewCountsAddUp(ops[..|ops| - 1]);
      CountNext(After(ops[..|ops| - 1]), ops[|ops| - 1]);
    } else {
      assert EntitiesOf(After(ops)) == {};
    }
  }

  // --------------------------------------------------------------- reports

  /** The rows that the report of a scan is made of. */
  ghost function ReportMaterial(table: Table, scan: ScanId): set<Key> {
    set k | k in table && k.scan == scan && table[k].validation.Validated? && table[k].isNew
  }

  ghost predicate Decides(op: Op, k: Key) {
    op.Triage? && op.key == k
  }

  /** The row was there when it was last decided on, and that decision confirmed it. */
  ghost predicate Confirmed(ops: seq<Op>, k: Key) {
    exists t: nat :: t < |ops| && ops[t] == Triage(k, Validated) && RecordedIn(ops[..t], k) &&
      forall u | t < u < |ops| :: !Decides(ops[u], k)
  }

  lemma ConfirmedNext(ops: seq<Op>, op: Op, k: Key)
    ensures Confirmed(ops + [op], k) <==>
            if Decides(op, k) then op.decision.Validated? && RecordedIn(ops, k) else Confirmed(ops, k)
  {
    var more := ops + [op];
    assert more[|ops|] == op && more[..|ops|] == ops;
    assert forall i | 0 <= i < |ops| :: more[i] == ops[i] && more[..i] == ops[..i];
    if Decides(op, k) && op.decision.Validated? && RecordedIn(ops, k) {
      assert more[|ops|] == Triage(k, Validated) && RecordedIn(more[..|ops|], k);
    }
    if Confirmed(ops, k) && !Decides(op, k) {
      var t: nat :| t < |ops| && ops[t] == Triage(k, Validated) && RecordedIn(ops[..t], k) &&
        forall u | t < u < |ops| :: !Decides(ops[u], k);
      assert more[t] == Triage(k, Validated) && RecordedIn(more[..t], k);
    }
  }

  ghost predicate ValidRow(table: Table, k: Key) {
    k in table && table[k].validation.Validated?
  }

  lemma ValidNext(table: Table, op: Op, k: Key)
    ensures ValidRow(Step(table, op), k) <==>
            if Decides(op, k) then k in table && op.decision.Validated? else ValidRow(table, k)
  {
    if op.Record? && op.commits {
      RecordAllIsBatch(table, op.b, Identities(op.b.program, op.findings));
    }
  }

  lemma {:induction false} ValidIff(ops: seq<Op>, k: Key)
    ensures ValidRow(After(ops), k) <==> Confirmed(ops, k)
  {
    if ops != [] {
      var init, last := ops[..|ops| - 1], ops[|ops| - 1];
      assert ops == init + [last];
      ValidIff(init, k);
      TableIsHistory(init);
      ValidNext(After(init), last, k);
      ConfirmedNext(init, last, k);
    }
  }

  /** The report of a scan is made of exactly the entities that this scan was the first
      to show and whose last triage confirmed them. */
  lemma ReportedIff(ops: seq<Op>, scan: ScanId, k: Key)
    ensures k in ReportMaterial(After(ops), scan) <==> k.scan == scan && FirstIn(ops, k) && Confirmed(ops, k)
  {
    TableIsHistory(ops);
    ValidIff(ops, k);
  }

  lemma FirstStaysFirst(ops: seq<Op>, n: nat, k: Key)
    requires n <= |ops| && FirstIn(ops[..n], k)
    ensures FirstIn(ops, k)
  {
    var i :| 0 <= i < n && Shows(ops[..n][i], k.program, k.fp) && ops[..n][i].b.scan == k.scan &&
      !ShownBy(ops[..n][..i], k.program, k.fp);
    assert ops[..n][..i] == ops[..i];
  }

  /** Over the reports of all scans, taken at any moments, an entity appears in the
      report of one scan only: the first that showed it. */
  lemma ReportedOnce(ops: seq<Op>, m: nat, n: nat, scan: ScanId, other: ScanId, k: Key, l: Key)
    requires m <= |ops| && n <= |ops|
    requires k in ReportMaterial(After(ops[..m]), scan) && l in ReportMaterial(After(ops[..n]), other)
    requires k.program == l.program && k.fp == l.fp
    ensures k == l && scan == other && FirstIn(ops, k)
  {
    TableIsHistory(ops[..m]);
    TableIsHistory(ops[..n]);
    FirstStaysFirst(ops, m, k);
    FirstStaysFirst(ops, n, l);
    FirstUnique(ops, k, l);
  }
}
