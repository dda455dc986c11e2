/** The findings store: fingerprinted rows, dedup inside a batch, and flagging of the
    entities that a program has never shown before. */
module Findings {
  import opened Prelude
  import opened Identity

  type ScanId = nat

  // ------------------------------------------------- the findings of a call

  /** What f makes of the list, where it makes anything. */
  ghost function Collected<A, B>(f: A -> Option<B>, s: seq<A>): seq<B> {
    if s == [] then []
    else
      var last := f(s[|s| - 1]);
      Collected(f, s[..|s| - 1]) + if last.Some? then [last.value] else []
  }

  ghost function Identities(program: ProgramId, fs: seq<Finding>): seq<Entity> {
    Collected(IdentifierOf(program), fs)
  }

  lemma CollectedOne<A, B>(f: A -> Option<B>, s: seq<A>, x: A)
    ensures Collected(f, s + [x]) == Collected(f, s) + if f(x).Some? then [f(x).value] else []
  {
    assert (s + [x])[..|s|] == s;
  }

  lemma SplitLast<T>(s: seq<T>, t: seq<T>) returns (init: seq<T>, last: T, cut: seq<T>)
    requires t != []
    ensures |init| < |t| && t == init + [last] && cut == s + init && s + t == cut + [last]
  {
    init, last := t[..|t| - 1], t[|t| - 1];
    cut := s + init;
  }

  lemma {:induction false} CollectedAppend<A, B>(f: A -> Option<B>, s: seq<A>, t: seq<A>)
    ensures Collected(f, s + t) == Collected(f, s) + Collected(f, t)
    decreases |t|
  {
    if t == [] {
      assert s + t == s;
    } else {
      var init, last, cut := SplitLast(s, t);
      CollectedAppend(f, s, init);
      CollectedOne(f, cut, last);
      CollectedOne(f, init, last);
    }
  }

  /** The values are what f makes of the picked elements; it makes nothing of the others. */
  ghost predicate TakenFrom<A(!new), B(!new)>(f: A -> Option<B>, s: seq<A>, values: seq<B>, picks: seq<nat>) {
    && Places(picks, |s|) && |values| == |picks|
    && (forall i | 0 <= i < |picks| :: f(s[picks[i]]) == Some(values[i]))
    && forall j: nat | j < |s| && f(s[j]).Some? :: j in picks
  }

  lemma TakenNext<A(!new), B(!new)>(f: A -> Option<B>, s: seq<A>, values: seq<B>, picks: seq<nat>, x: A)
    requires TakenFrom(f, s, values, picks)
    ensures f(x).None? ==> TakenFrom(f, s + [x], values, picks)
    ensures f(x).Some? ==> TakenFrom(f, s + [x], values + [f(x).value], picks + [|s|])
  {
    PlacesNext(picks, |s|);
    assert forall j | 0 <= j < |s| :: (s + [x])[j] == s[j];
    assert (picks + [|s|])[|picks|] == |s|;
    assert forall j | j in picks :: j in picks + [|s|];
  }

  lemma {:induction false} CollectedPicks<A(!new), B(!new)>(f: A -> Option<B>, s: seq<A>) returns (picks: seq<nat>)
    ensures TakenFrom(f, s, Collected(f, s), picks)
  {
    picks := [];
    if s != [] {
      var init, x := s[..|s| - 1], s[|s| - 1];
      assert s == init + [x];
      picks := CollectedPicks(f, init);
      TakenNext(f, init, Collected(f, init), picks, x);
      if f(x).Some? {
        picks := picks + [|init|];
      }
    }
  }

  /** The entities are those of the picked findings, in order; the others are malformed. */
  ghost predicate IdentitiesFrom(program: ProgramId, fs: seq<Finding>, es: seq<Entity>, picks: seq<nat>) {
    && Places(picks, |fs|) && |es| == |picks|
    && (forall i | 0 <= i < |picks| :: Describes(program, fs[picks[i]], es[i]))
    && forall j: nat | j < |fs| :: j in picks <==> !Malformed(fs[j])
  }

  lemma IdentityPicks(program: ProgramId, fs: seq<Finding>) returns (picks: seq<nat>)
    ensures IdentitiesFrom(program, fs, Identities(program, fs), picks)
  {
    var identify := IdentifierOf(program);
    picks := CollectedPicks(identify, fs);
    forall j: nat | j < |fs|
      ensures identify(fs[j]).Some? <==> !Malformed(fs[j])
      ensures identify(fs[j]).Some? ==> Describes(program, fs[j], identify(fs[j]).value)
    {
      IdentifyIs(program, fs[j]);
    }
  }

  // --------------------------------------------------------------- table

  datatype Validation = Unvalidated | Validated | Refuted

  /** UNIQUE (program_id, fingerprint, scan_id). */
  datatype Key = Key(program: ProgramId, fp: Fingerprint, scan: ScanId)

  datatype Row = Row(task: string, target: string, entity: Entity, isNew: bool, validation: Validation)

  type Table = map<Key, Row>

  /** What all findings of one call share. */
  datatype Batch = Batch(program: ProgramId, scan: ScanId, task: string, target: string)

  function NewRow(b: Batch, e: Entity, isNew: bool): Row {
    Row(b.task, b.target, e, isNew, Unvalidated)
  }

  function KeyOf(b: Batch, e: Entity): Key {
    Key(b.program, e.fp, b.scan)
  }

  ghost predicate Seen(table: Table, program: ProgramId, fp: Fingerprint) {
    exists k :: k in table && k.program == program && k.fp == fp
  }

  // ------------------------------------- the simple form: one row at a time

  /** Record one entity: new iff the program never showed it; a row that the scan
      already has is left alone. */
  ghost function RecordOne(table: Table, b: Batch, e: Entity): Table {
    if KeyOf(b, e) in table then table
    else table[KeyOf(b, e) := NewRow(b, e, !Seen(table, b.program, e.fp))]
  }

  ghost function RecordAll(table: Table, b: Batch, es: seq<Entity>): Table {
    if es == [] then table else RecordOne(RecordAll(table, b, es[..|es| - 1]), b, es[|es| - 1])
  }

  /** How many of them were new when their turn came. */
  ghost function NewByAll(table: Table, b: Batch, es: seq<Entity>): nat {
    if es == [] then 0
    else
      var init, last := es[..|es| - 1], es[|es| - 1];
      NewByAll(table, b, init) + if Seen(RecordAll(table, b, init), b.program, last.fp) then 0 else 1
  }

  lemma AppendOne(table: Table, b: Batch, es: seq<Entity>, e: Entity)
    ensures RecordAll(table, b, es + [e]) == RecordOne(RecordAll(table, b, es), b, e)
    ensures NewByAll(table, b, es + [e]) ==
            NewByAll(table, b, es) + if Seen(RecordAll(table, b, es), b.program, e.fp) then 0 else 1
  {
    assert (es + [e])[..|es|] == es;
  }

  /** Batch independence: a batch may be cut anywhere. */
  lemma {:induction false} BatchIndependent(table: Table, b: Batch, es: seq<Entity>, ds: seq<Entity>)
    ensures RecordAll(table, b, es + ds) == RecordAll(RecordAll(table, b, es), b, ds)
    ensures NewByAll(table, b, es + ds) == NewByAll(table, b, es) + NewByAll(RecordAll(table, b, es), b, ds)
    decreases |ds|
  {
    if ds == [] {
      assert es + ds == es;
    } else {
      var init, last, cut := SplitLast(es, ds);
      BatchIndependent(table, b, es, init);
      AppendOne(table, b, cut, last);
      AppendOne(RecordAll(table, b, es), b, init, last);
    }
  }

  /** The same for the findings as they come in. */
  lemma FindingsIndependent(table: Table, b: Batch, fs: seq<Finding>, gs: seq<Finding>)
    ensures var first := RecordAll(table, b, Identities(b.program, fs));
            && RecordAll(table, b, Identities(b.program, fs + gs)) == RecordAll(first, b, Identities(b.program, gs))
            && NewByAll(table, b, Identities(b.program, fs + gs)) ==
               NewByAll(table, b, Identities(b.program, fs)) + NewByAll(first, b, Identities(b.program, gs))
  {
    CollectedAppend(IdentifierOf(b.program), fs, gs);
    BatchIndependent(table, b, Identities(b.program, fs), Identities(b.program, gs));
  }

  // -------------------------------------------- what a batch amounts to

  ghost predicate Mentions(es: seq<Entity>, fp: Fingerprint) {
    exists i :: 0 <= i < |es| && es[i].fp == fp
  }

  lemma MentionsLast(es: seq<Entity>, e: Entity, fp: Fingerprint)
    ensures Mentions(es + [e], fp) <==> Mentions(es, fp) || e.fp == fp
  {
    var more := es + [e];
    assert more[|es|] == e;
    if i :| 0 <= i < |es| && es[i].fp == fp {
      assert more[i].fp == fp;
    }
  }

  /** The first entity of the list with the given fingerprint. */
  ghost function FirstWith(es: seq<Entity>, fp: Fingerprint): (e: Entity)
    requires Mentions(es, fp)
    ensures e.fp == fp && exists i :: 0 <= i < |es| && es[i] == e && !Mentions(es[..i], fp)
  {
    var init := es[..|es| - 1];
    if Mentions(init, fp) then
      var e := FirstWith(init, fp);
      assert exists i :: 0 <= i < |es| && es[i] == e && !Mentions(es[..i], fp) by {
        var i :| 0 <= i < |init| && init[i] == e && !Mentions(init[..i], fp);
        assert init[..i] == es[..i] && es[i] == e;
      }
      e
    else
      assert init + [es[|es| - 1]] == es;
      assert es[|es| - 1].fp == fp by { MentionsLast(init, es[|es| - 1], fp); }
      es[|es| - 1]
  }

  ghost predicate IsBatchOf(before: Table, b: Batch, es: seq<Entity>, after: Table) {
    && (forall k :: k in after <==>
          k in before || (k.program == b.program && k.scan == b.scan && Mentions(es, k.fp)))
    && (forall k | k in before :: after[k] == before[k])
    && (forall k | k in after && k !in before ::
          after[k] == Row(b.task, b.target, FirstWith(es, k.fp), !Seen(before, b.program, k.fp), Unvalidated))
  }

  lemma SeenAfter(before: Table, b: Batch, es: seq<Entity>, after: Table, fp: Fingerprint)
    requires IsBatchOf(before, b, es, after)
    ensures Seen(after, b.program, fp) <==> Seen(before, b.program, fp) || Mentions(es, fp)
  {
    if Seen(before, b.program, fp) {
      var k :| k in before && k.program == b.program && k.fp == fp;
      assert k in after;
    }
    if Mentions(es, fp) {
      assert Key(b.program, fp, b.scan) in after;
    }
  }

  /** Recording one by one amounts to the closed form. */
  lemma {:induction false} RecordAllIsBatch(before: Table, b: Batch, es: seq<Entity>)
    ensures IsBatchOf(before, b, es, RecordAll(before, b, es))
  {
    if es != [] {
      RecordAllIsBatch(before, b, es[..|es| - 1]);
      assert es[..|es| - 1] + [es[|es| - 1]] == es;
      RecordLast(before, b, es[..|es| - 1], RecordAll(before, b, es[..|es| - 1]), es[|es| - 1]);
    }
  }

  lemma RecordLast(before: Table, b: Batch, init: seq<Entity>, middle: Table, e: Entity)
    requires IsBatchOf(before, b, init, middle)
    ensures IsBatchOf(before, b, init + [e], RecordOne(middle, b, e))
  {
    var after, es := RecordOne(middle, b, e), init + [e];
    assert es[..|es| - 1] == init;
    forall fp ensures Mentions(es, fp) <==> Mentions(init, fp) || e.fp == fp {
      MentionsLast(init, e, fp);
    }
    SeenAfter(before, b, init, middle, e.fp);
  }

  /** The entities of a batch that the program never showed before. */
  ghost function Fresh(table: Table, program: ProgramId, es: seq<Entity>): set<Fingerprint> {
    set e | e in es && !Seen(table, program, e.fp) :: e.fp
  }

  lemma FreshNext(table: Table, program: ProgramId, es: seq<Entity>, e: Entity)
    ensures Fresh(table, program, es + [e]) ==
            Fresh(table, program, es) + (if Seen(table, program, e.fp) then {} else {e.fp})
  {
    assert forall d :: d in es + [e] <==> d in es || d == e;
  }

  lemma {:induction false} NewByAllCounts(table: Table, b: Batch, es: seq<Entity>)
    ensures NewByAll(table, b, es) == |Fresh(table, b.program, es)|
  {
    if es != [] {
      var init, last := es[..|es| - 1], es[|es| - 1];
      assert es == init + [last];
      NewByAllCounts(table, b, init);
      AppendOne(table, b, init, last);
      RecordAllIsBatch(table, b, init);
      SeenAfter(table, b, init, RecordAll(table, b, init), last.fp);
      FreshNext(table, b.program, init, last);
      FreshMentions(table, b.program, init, last.fp);
    }
  }

  lemma FreshMentions(table: Table, program: ProgramId, es: seq<Entity>, fp: Fingerprint)
    ensures fp in Fresh(table, program, es) <==> Mentions(es, fp) && !Seen(table, program, fp)
  {
    if Mentions(es, fp) {
      var i :| 0 <= i < |es| && es[i].fp == fp;
      assert es[i] in es;
    }
  }

  // ------------------------------------------------- the batched form

  /** First occurrences in order, as an insertion-ordered dictionary keeps them. */
  ghost function Firsts(es: seq<Entity>): seq<Entity> {
    if es == [] then []
    else
      var init, last := es[..|es| - 1], es[|es| - 1];
      if Mentions(init, last.fp) then Firsts(init) else Firsts(init) + [last]
  }

  /** Insert with the conflict guard, newness being known beforehand. */
  ghost function InsertAll(table: Table, b: Batch, us: seq<Entity>, seen: set<Fingerprint>): Table {
    if us == [] then table
    else
      var before, u := InsertAll(table, b, us[..|us| - 1], seen), us[|us| - 1];
      if KeyOf(b, u) in before then before else before[KeyOf(b, u) := NewRow(b, u, u.fp !in seen)]
  }

  ghost function CountNew(us: seq<Entity>, seen: set<Fingerprint>): nat {
    if us == [] then 0
    else CountNew(us[..|us| - 1], seen) + if us[|us| - 1].fp in seen then 0 else 1
  }

  /** `seen` answers for the entities of the batch whether the program showed them. */
  ghost predicate AnswersFor(seen: set<Fingerprint>, table: Table, program: ProgramId, es: seq<Entity>) {
    forall i | 0 <= i < |es| :: es[i].fp in seen <==> Seen(table, program, es[i].fp)
  }

  lemma FirstsNext(es: seq<Entity>, e: Entity)
    ensures Firsts(es + [e]) == if Mentions(es, e.fp) then Firsts(es) else Firsts(es) + [e]
  {
    assert (es + [e])[..|es|] == es;
  }

  lemma InsertNext(table: Table, b: Batch, us: seq<Entity>, u: Entity, seen: set<Fingerprint>)
    ensures var before := InsertAll(table, b, us, seen);
            InsertAll(table, b, us + [u], seen) ==
            if KeyOf(b, u) in before then before else before[KeyOf(b, u) := NewRow(b, u, u.fp !in seen)]
    ensures CountNew(us + [u], seen) == CountNew(us, seen) + if u.fp in seen then 0 else 1
  {
    assert (us + [u])[..|us|] == us;
  }

  /** One query and dedup in memory agree with recording one by one. */
  lemma {:induction false} BatchedAgrees(table: Table, b: Batch, es: seq<Entity>, seen: set<Fingerprint>)
    requires AnswersFor(seen, table, b.program, es)
    ensures InsertAll(table, b, Firsts(es), seen) == RecordAll(table, b, es)
    ensures CountNew(Firsts(es), seen) == NewByAll(table, b, es)
  {
    if es != [] {
      var init, last := es[..|es| - 1], es[|es| - 1];
      assert es == init + [last];
      BatchedAgrees(table, b, init, seen);
      RecordAllIsBatch(table, b, init);
      SeenAfter(table, b, init, RecordAll(table, b, init), last.fp);
      AppendOne(table, b, init, last);
      FirstsNext(init, last);
      InsertNext(table, b, Firsts(init), last, seen);
    }
  }

  ghost function Fingerprints(es: seq<Entity>): set<Fingerprint> {
    set i | 0 <= i < |es| :: es[i].fp
  }

  lemma FingerprintsNext(es: seq<Entity>, e: Entity)
    ensures Fingerprints(es + [e]) == Fingerprints(es) + {e.fp}
    ensures e.fp in Fingerprints(es) <==> Mentions(es, e.fp)
  {
    forall fp ensures fp in Fingerprints(es + [e]) <==> fp in Fingerprints(es) || fp == e.fp {
      MentionsLast(es, e, fp);
    }
  }

  lemma {:induction false} FirstsCount(es: seq<Entity>)
    ensures |Firsts(es)| == |Fingerprints(es)|
  {
    if es != [] {
      var init, last := es[..|es| - 1], es[|es| - 1];
      FirstsCount(init);
      FingerprintsNext(init, last);
      assert es == init + [last];
    }
  }

  /** What a call amounts to: the well-formed findings are recorded in order, one row per
      entity from its first finding, and the entities and the new ones are counted. */
  ghost predicate Recorded(before: Table, b: Batch, fs: seq<Finding>, after: Table, recorded: nat, newCount: nat) {
    exists es, picks ::
      && IdentitiesFrom(b.program, fs, es, picks) && IsBatchOf(before, b, es, after)
      && recorded == |Fingerprints(es)| && newCount == |Fresh(before, b.program, es)|
  }

  lemma RecordedAll(before: Table, b: Batch, fs: seq<Finding>)
    ensures var es := Identities(b.program, fs);
            Recorded(before, b, fs, RecordAll(before, b, es), |Fingerprints(es)|, NewByAll(before, b, es))
  {
    var es := Identities(b.program, fs);
    var picks := IdentityPicks(b.program, fs);
    RecordAllIsBatch(before, b, es);
    NewByAllCounts(before, b, es);
  }

  // ---------------------------------------------------------- the store

  /** The first loop of a call: malformed findings are skipped. */
  method CollectIdentities(program: ProgramId, findings: seq<Finding>) returns (identities: seq<Entity>)
    ensures identities == Identities(program, findings)
    ensures exists picks :: IdentitiesFrom(program, findings, identities, picks)
  {
    identities := Collect(IdentifierOf(program), findings);
    ghost var picks := IdentityPicks(program, findings);
  }

  method Collect<A, B>(f: A -> Option<B>, s: seq<A>) returns (r: seq<B>)
    ensures r == Collected(f, s)
  {
    r := [];
    for i := 0 to |s|
      invariant r == Collected(f, s[..i])
    {
      var one := f(s[i]);
      CollectedOne(f, s[..i], s[i]);
      assert s[..i + 1] == s[..i] + [s[i]];
      if one.Some? {
        r := r + [one.value];
      }
    }
    assert s[..|s|] == s;
  }

  /** The in-batch dedup. */
  method Dedup(identities: seq<Entity>) returns (unique: seq<Entity>)
    ensures unique == Firsts(identities)
  {
    unique := [];
    var known: set<Fingerprint> := {};
    for i := 0 to |identities|
      invariant unique == Firsts(identities[..i])
      invariant known == Fingerprints(identities[..i])
    {
      var entity := identities[i];
      assert identities[..i + 1] == identities[..i] + [entity];
      assert identities[..i + 1][..i] == identities[..i];
      FingerprintsNext(identities[..i], entity);
      if entity.fp !in known {
        unique := unique + [entity];
      }
      known := known + {entity.fp};
    }
    assert identities[..|identities|] == identities;
  }

  /** The inserts; a row that the scan already has only has `last_seen` refreshed. */
  method InsertRecords(table: Table, b: Batch, unique: seq<Entity>, seen: set<Fingerprint>)
    returns (staged: Table, newCount: nat)
    ensures staged == InsertAll(table, b, unique, seen) && newCount == CountNew(unique, seen)
  {
    staged, newCount := table, 0;
    for i := 0 to |unique|
      invariant staged == InsertAll(table, b, unique[..i], seen) && newCount == CountNew(unique[..i], seen)
    {
      var u := unique[i];
      assert unique[..i + 1][..i] == unique[..i];
      if KeyOf(b, u) !in staged {
        staged := staged[KeyOf(b, u) := NewRow(b, u, u.fp !in seen)];
      }
      if u.fp !in seen {
        newCount := newCount + 1;
      }
    }
    assert unique[..|unique|] == unique;
  }

  function Triaged(table: Table, key: Key, decision: Validation): Table {
    if key in table then table[key := table[key].(validation := decision)] else table
  }

  class FindingsStore {
    var table: Table

    constructor ()
      ensures table == map[]
    {
      table := map[];
    }

    /** Record a batch in one transaction. `commits` says whether the database
        carries the transaction through; if not, nothing is recorded. */
    method RecordFindings(b: Batch, findings: seq<Finding>, commits: bool) returns (recorded: nat, newCount: nat)
      modifies this
      ensures commits ==> table == RecordAll(old(table), b, Identities(b.program, findings))
      ensures commits ==> newCount == NewByAll(old(table), b, Identities(b.program, findings))
      ensures commits ==> recorded == |Fingerprints(Identities(b.program, findings))|
      ensures commits ==> Recorded(old(table), b, findings, table, recorded, newCount)
      ensures !commits ==> table == old(table) && recorded == 0 && newCount == 0
    {
      recorded, newCount := 0, 0;
      RecordedAll(table, b, findings);
      if findings == [] {
        return;
      }
      var identities := CollectIdentities(b.program, findings);
      if identities == [] {
        return;
      }
      var fingerprints := set e | e in identities :: e.fp;
      var seenBefore := set k | k in table && k.program == b.program && k.fp in fingerprints :: k.fp;
      var unique := Dedup(identities);
      var staged, added := InsertRecords(table, b, unique, seenBefore);
      assert AnswersFor(seenBefore, table, b.program, identities);
      BatchedAgrees(table, b, identities, seenBefore);
      FirstsCount(identities);
      if commits {
        table := staged;
        recorded, newCount := |unique|, added;
      }
    }

    /** UPDATE of one row's validation state; None if there is no such row. */
    method TriageFinding(key: Key, decision: Validation) returns (row: Option<Row>)
      modifies this
      ensures table == Triaged(old(table), key, decision)
      ensures key !in old(table) ==> row == None && table == old(table)
      ensures key in old(table) ==>
                var was := old(table)[key];
                && row == Some(Row(was.task, was.target, was.entity, was.isNew, decision))
                && table == old(table)[key := row.value]
    {
      if key !in table {
        return None;
      }
      table := table[key := table[key].(validation := decision)];
      return Some(table[key]);
    }
  }
}
