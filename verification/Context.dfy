/** The input of a tool that consumes earlier findings: distinct values per type, then
    one list over all consumed types. */
module Context {
  import opened Prelude
  import opened Graph

  const VALUES_CAP: nat := 100_000

  /** A finding as the query returns it, oldest first. */
  datatype Found = Found(ftype: string, value: string)

  ghost predicate Upstream(rows: seq<Found>, consumes: seq<string>, value: string) {
    exists i :: 0 <= i < |rows| && rows[i].ftype in consumes && rows[i].value == value
  }

  type Groups = map<string, seq<string>>

  /** The row at r is the first of its type with value v, and every one with w comes later. */
  ghost predicate RowsApart(rows: seq<Found>, t: string, v: string, w: string) {
    exists r :: 0 <= r < |rows| && rows[r] == Found(t, v) && Found(t, w) !in rows[..r + 1]
  }

  /** Each consumed type has exactly the values of its rows, none twice, in the order in
      which the rows first show them. */
  ghost predicate GroupsOf(rows: seq<Found>, types: seq<string>, groups: Groups) {
    && (forall t :: t in groups <==> t in types)
    && forall t | t in groups :: GroupOf(rows, t, groups[t])
  }

  ghost predicate GroupOf(rows: seq<Found>, t: string, group: seq<string>) {
    && Distinct(group) && (forall v :: v in group <==> Found(t, v) in rows)
    && forall a, b | 0 <= a < b < |group| :: RowsApart(rows, t, group[a], group[b])
  }

  lemma GroupNext(rows: seq<Found>, t: string, group: seq<string>, row: Found)
    requires GroupOf(rows, t, group)
    ensures row.ftype != t || row.value in group ==> GroupOf(rows + [row], t, group)
    ensures row.ftype == t && row.value !in group ==> GroupOf(rows + [row], t, group + [row.value])
  {
    var more, next := rows + [row], group + [row.value];
    assert forall r :: r in more <==> r in rows || r == row;
    forall a, b | 0 <= a < b < |group| ensures RowsApart(more, t, group[a], group[b]) {
      assert RowsApart(rows, t, group[a], group[b]);
      var r :| 0 <= r < |rows| && rows[r] == Found(t, group[a]) && Found(t, group[b]) !in rows[..r + 1];
      assert more[r] == rows[r] && more[..r + 1] == rows[..r + 1];
    }
    if row.ftype == t && row.value !in group {
      forall a, b | 0 <= a < b < |next| ensures RowsApart(more, t, next[a], next[b]) {
        if b == |group| {
          assert group[a] in group && Found(t, group[a]) in rows;
          var r :| 0 <= r < |rows| && rows[r] == Found(t, group[a]);
          assert more[r] == rows[r] && more[..r + 1] == rows[..r + 1];
        } else {
          assert next[a] == group[a] && next[b] == group[b];
        }
      }
    }
  }

  method FindingValues(rows: seq<Found>, types: seq<string>) returns (groups: Groups)
    requires forall r | r in rows :: r.ftype in types
    ensures GroupsOf(rows, types, groups)
  {
    groups := map t | t in types :: [];
    for i := 0 to |rows|
      invariant GroupsOf(rows[..i], types, groups)
    {
      var row := rows[i];
      assert row in rows && rows[..i + 1] == rows[..i] + [row];
      forall t | t in groups {
        GroupNext(rows[..i], t, groups[t], row);
      }
      if row.value !in groups[row.ftype] {
        groups := groups[row.ftype := groups[row.ftype] + [row.value]];
      }
    }
    assert rows[..|rows|] == rows;
  }

  ghost predicate InGroups(groups: Groups, types: seq<string>, v: string) {
    exists t :: t in types && t in groups && v in groups[t]
  }

  /** The value at place a is taken from place p of group i, and all that comes before it
      there is listed before it. */
  ghost predicate TakenAt(groups: Groups, consumes: seq<string>, values: seq<string>, a: nat, i: nat, p: nat) {
    && a < |values| && i < |consumes| && consumes[i] in groups && p < |groups[consumes[i]]|
    && groups[consumes[i]][p] == values[a]
    && (forall u | u in groups[consumes[i]][..p] :: u in values[..a])
    && forall u | InGroups(groups, consumes[..i], u) :: u in values[..a]
  }

  ghost predicate Taken(groups: Groups, consumes: seq<string>, values: seq<string>, a: nat) {
    exists i: nat, p: nat :: TakenAt(groups, consumes, values, a, i, p)
  }

  lemma TakenNext(groups: Groups, consumes: seq<string>, values: seq<string>, a: nat, v: string)
    requires Taken(groups, consumes, values, a)
    ensures Taken(groups, consumes, values + [v], a)
  {
    var i: nat, p: nat :| TakenAt(groups, consumes, values, a, i, p);
    assert (values + [v])[..a] == values[..a];
    assert TakenAt(groups, consumes, values + [v], a, i, p);
  }

  lemma TakenLast(groups: Groups, consumes: seq<string>, values: seq<string>, i: nat, p: nat, v: string)
    requires i < |consumes| && consumes[i] in groups && p < |groups[consumes[i]]| && groups[consumes[i]][p] == v
    requires forall u :: u in values <==> InGroups(groups, consumes[..i], u) || u in groups[consumes[i]][..p]
    requires forall a: nat | a < |values| :: Taken(groups, consumes, values, a)
    ensures forall a: nat | a < |values| + 1 :: Taken(groups, consumes, values + [v], a)
  {
    forall a: nat | a < |values| {
      TakenNext(groups, consumes, values, a, v);
    }
    assert (values + [v])[..|values|] == values;
    assert TakenAt(groups, consumes, values + [v], |values|, i, p);
  }

  method MergeGroups(groups: Groups, consumes: seq<string>) returns (values: seq<string>)
    requires forall t | t in consumes :: t in groups
    ensures Distinct(values) && forall v :: v in values <==> InGroups(groups, consumes, v)
    ensures forall a: nat | a < |values| :: Taken(groups, consumes, values, a)
  {
    values := [];
    var seen: set<string> := {};
    for i := 0 to |consumes|
      invariant Distinct(values) && forall v :: v in values <==> v in seen
      invariant forall v :: v in seen <==> InGroups(groups, consumes[..i], v)
      invariant forall a: nat | a < |values| :: Taken(groups, consumes, values, a)
    {
      var group := groups[consumes[i]];
      for j := 0 to |group|
        invariant Distinct(values) && forall v :: v in values <==> v in seen
        invariant forall v :: v in seen <==> InGroups(groups, consumes[..i], v) || v in group[..j]
        invariant forall a: nat | a < |values| :: Taken(groups, consumes, values, a)
      {
        if group[j] !in seen {
          TakenLast(groups, consumes, values, i, j, group[j]);
          seen := seen + {group[j]};
          values := values + [group[j]];
        }
      }
      assert group[..|group|] == group;
      assert forall t :: t in consumes[..i + 1] <==> t in consumes[..i] || t == consumes[i];
    }
    assert consumes[..|consumes|] == consumes;
  }

  /** v comes before w: the first consumed type that shows v does so before it shows w,
      and no type consumed earlier shows w. */
  ghost predicate Earlier(rows: seq<Found>, consumes: seq<string>, v: string, w: string) {
    exists i :: 0 <= i < |consumes| && RowsApart(rows, consumes[i], v, w) &&
      forall j | 0 <= j < i :: Found(consumes[j], w) !in rows
  }

  lemma GroupApart(rows: seq<Found>, t: string, group: seq<string>, p: nat, w: string)
    requires GroupOf(rows, t, group) && p < |group| && w !in group[..p + 1]
    ensures RowsApart(rows, t, group[p], w)
  {
    if w in group {
      var q :| 0 <= q < |group| && group[q] == w;
    } else {
      assert group[p] in group && Found(t, group[p]) in rows;
      var r :| 0 <= r < |rows| && rows[r] == Found(t, group[p]);
      assert Found(t, w) !in rows[..r + 1];
    }
  }

  lemma TakenEarlier(rows: seq<Found>, consumes: seq<string>, groups: Groups, values: seq<string>, a: nat, w: string)
    requires GroupsOf(rows, consumes, groups) && Taken(groups, consumes, values, a)
    requires a < |values| && w !in values[..a + 1]
    ensures Earlier(rows, consumes, values[a], w)
  {
    var i: nat, p: nat :| TakenAt(groups, consumes, values, a, i, p);
    var group := groups[consumes[i]];
    assert values[..a + 1] == values[..a] + [values[a]] && group[..p + 1] == group[..p] + [group[p]];
    GroupApart(rows, consumes[i], group, p, w);
    assert !InGroups(groups, consumes[..i], w);
    forall j | 0 <= j < i ensures Found(consumes[j], w) !in rows {
      assert consumes[j] in consumes[..i];
    }
  }

  /** The values written to the tool's input file; None stands for the error raised
      when a tool that needs a file has nothing upstream. Rows of other types are not
      part of the query's answer. */
  method BuildInput(rows: seq<Found>, consumes: seq<string>, needsFile: bool) returns (input: Option<seq<string>>)
    requires forall r | r in rows :: r.ftype in consumes
    ensures input.None? <==> needsFile && rows == []
    ensures input.Some? && !needsFile ==> input.value == []
    ensures input.Some? && needsFile ==>
              Distinct(input.value) && 0 < |input.value| <= VALUES_CAP &&
              (forall v | v in input.value :: Upstream(rows, consumes, v)) &&
              (|input.value| < VALUES_CAP ==> forall v | Upstream(rows, consumes, v) :: v in input.value)
    ensures input.Some? && needsFile ==>
              forall a, w | 0 <= a < |input.value| && w !in input.value[..a + 1] ::
                Earlier(rows, consumes, input.value[a], w)
  {
    if !needsFile {
      return Some([]);
    }
    var groups := FindingValues(rows, consumes);
    var values := MergeGroups(groups, consumes);
    forall v ensures v in values <==> Upstream(rows, consumes, v) {
      if v in values {
        var t :| t in consumes && t in groups && v in groups[t];
        assert Found(t, v) in rows;
      }
      if Upstream(rows, consumes, v) {
        var i :| 0 <= i < |rows| && rows[i].ftype in consumes && rows[i].value == v;
        assert Found(rows[i].ftype, v) in rows && v in groups[rows[i].ftype];
      }
    }
    assert values != [] ==> Upstream(rows, consumes, values[0]);
    if rows != [] {
      assert rows[0] in rows && Upstream(rows, consumes, rows[0].value);
    }
    ghost var all := values;
    if |values| > VALUES_CAP {
      values := values[..VALUES_CAP];
    }
    if values == [] {
      return None;
    }
    forall a, w | 0 <= a < |values| && w !in values[..a + 1] ensures Earlier(rows, consumes, values[a], w) {
      assert values[..a + 1] == all[..a + 1];
      TakenEarlier(rows, consumes, groups, all, a, w);
    }
    return Some(values);
  }
}
