/** What a plan holds, entry by entry: which task stands at which place, with what tool,
    group and parameters. */
module Plans {
  import opened Prelude
  import opened Graph
  import opened Planner

  // ---------------------------------------------------- sorting and joining

  /** a and b agree up to place k, where a ends first or has the smaller character. */
  ghost predicate LessAt(a: string, b: string, k: nat) {
    k <= |a| && k < |b| && a[..k] == b[..k] && (k == |a| || a[k] < b[k])
  }

  ghost predicate Less(a: string, b: string) {
    exists k: nat :: LessAt(a, b, k)
  }

  lemma {:induction false} BeforeIff(a: string, b: string)
    ensures Before(a, b) <==> Less(a, b)
  {
    if a != "" && b != "" && a[0] == b[0] {
      BeforeIff(a[1..], b[1..]);
      if Less(a[1..], b[1..]) {
        var k: nat :| LessAt(a[1..], b[1..], k);
        assert a[..k + 1] == [a[0]] + a[1..][..k] && b[..k + 1] == [b[0]] + b[1..][..k];
        assert LessAt(a, b, k + 1);
      }
      if Less(a, b) {
        var k: nat :| LessAt(a, b, k);
        assert k > 0;
        assert a[1..][..k - 1] == a[..k][1..] && b[1..][..k - 1] == b[..k][1..];
        assert LessAt(a[1..], b[1..], k - 1);
      }
    } else if Before(a, b) {
      assert LessAt(a, b, 0);
    }
  }

  lemma {:induction false} BeforeTransitive(a: string, b: string, c: string)
    requires Before(a, b) && Before(b, c)
    ensures Before(a, c)
  {
    if a != "" && a[0] == b[0] == c[0] {
      BeforeTransitive(a[1..], b[1..], c[1..]);
    }
  }

  lemma {:induction false} BeforeTotal(a: string, b: string)
    ensures a == b || Before(a, b) || Before(b, a)
  {
    if a != "" && b != "" && a[0] == b[0] {
      BeforeTotal(a[1..], b[1..]);
      assert a == [a[0]] + a[1..] && b == [b[0]] + b[1..];
    }
  }

  lemma {:induction false} BeforeStrict(a: string)
    ensures !Before(a, a)
  {
    if a != "" {
      BeforeStrict(a[1..]);
    }
  }

  /** No later text is less than an earlier one. */
  ghost predicate Ordered(s: seq<string>) {
    forall i, j | 0 <= i < j < |s| :: !Less(s[j], s[i])
  }

  ghost predicate InOrder(s: seq<string>) {
    forall i, j | 0 <= i < j < |s| :: !Before(s[j], s[i])
  }

  lemma OrderedIff(s: seq<string>)
    ensures Ordered(s) <==> InOrder(s)
  {
    forall i, j | 0 <= i < |s| && 0 <= j < |s| ensures Before(s[j], s[i]) <==> Less(s[j], s[i]) {
      BeforeIff(s[j], s[i]);
    }
  }

  lemma HeadMinimal(x: string, s: seq<string>)
    requires InOrder(s) && s != [] && Before(x, s[0])
    ensures InOrder([x] + s)
  {
    forall j | 0 <= j < |s| ensures !Before(s[j], x) {
      if Before(s[j], x) {
        BeforeTransitive(s[j], x, s[0]);
        BeforeStrict(s[0]);
      }
    }
    assert forall j | 0 < j < |[x] + s| :: ([x] + s)[j] == s[j - 1];
  }

  lemma HeadFirst(x: string, s: seq<string>)
    requires InOrder(s) && forall y | y in s :: !Before(y, x)
    ensures InOrder([x] + s)
  {
    assert forall j | 0 < j < |[x] + s| :: ([x] + s)[j] == s[j - 1];
  }

  lemma {:induction false} Inserted(x: string, s: seq<string>)
    requires InOrder(s)
    ensures InOrder(InsertSorted(x, s)) && multiset(InsertSorted(x, s)) == multiset(s) + multiset{x}
  {
    if s == [] {
    } else if Before(x, s[0]) {
      HeadMinimal(x, s);
    } else {
      var rest := InsertSorted(x, s[1..]);
      Inserted(x, s[1..]);
      assert s == [s[0]] + s[1..];
      forall y | y in rest ensures !Before(y, s[0]) {
        assert y in multiset(rest);
        assert y == x || y in s[1..];
      }
      HeadFirst(s[0], rest);
    }
  }

  lemma {:induction false} SortedIs(s: seq<string>)
    ensures InOrder(Sorted(s)) && multiset(Sorted(s)) == multiset(s)
  {
    if s != [] {
      var init, last := s[..|s| - 1], s[|s| - 1];
      SortedIs(init);
      Inserted(last, Sorted(init));
      assert s == init + [last];
    }
  }

  lemma SameHead(s: seq<string>, t: seq<string>)
    requires InOrder(s) && InOrder(t) && multiset(s) == multiset(t) && s != []
    ensures t != [] && s[0] == t[0]
  {
    assert s[0] in multiset(t);
    var i :| 0 <= i < |t| && t[i] == s[0];
    assert t[0] in multiset(s);
    var j :| 0 <= j < |s| && s[j] == t[0];
    BeforeTotal(s[0], t[0]);
  }

  lemma {:induction false} OneOrder(s: seq<string>, t: seq<string>)
    requires InOrder(s) && InOrder(t) && multiset(s) == multiset(t)
    ensures s == t
  {
    if s == [] {
      assert |multiset(t)| == 0;
    } else {
      SameHead(s, t);
      assert s == [s[0]] + s[1..] && t == [t[0]] + t[1..];
      assert multiset(s[1..]) == multiset(s) - multiset{s[0]} == multiset(t[1..]);
      OneOrder(s[1..], t[1..]);
    }
  }

  /** The parts with commas between them, put together from the end. */
  ghost function Commas(parts: seq<string>): string {
    if parts == [] then "" else if |parts| == 1 then parts[0]
    else Commas(parts[..|parts| - 1]) + "," + parts[|parts| - 1]
  }

  lemma {:induction false} CommasFront(parts: seq<string>)
    requires |parts| > 1
    ensures Commas(parts) == parts[0] + "," + Commas(parts[1..])
  {
    var init := parts[..|parts| - 1];
    if |parts| > 2 {
      CommasFront(init);
      assert init[1..] == parts[1..][..|parts| - 2];
      assert parts[0] + "," + (Commas(init[1..]) + "," + parts[|parts| - 1]) ==
             parts[0] + "," + Commas(init[1..]) + "," + parts[|parts| - 1];
    }
  }

  lemma {:induction false} JoinIs(parts: seq<string>)
    ensures Join(parts) == Commas(parts)
  {
    if |parts| > 1 {
      JoinIs(parts[1..]);
      CommasFront(parts);
    }
  }

  /** The comma-joined list of the targets in lexicographic order. */
  ghost predicate SortedList(group: string, targets: seq<string>) {
    exists sorted :: Ordered(sorted) && multiset(sorted) == multiset(targets) && group == Commas(sorted)
  }

  lemma GroupText(targets: seq<string>)
    ensures SortedList(Join(Sorted(targets)), targets)
  {
    SortedIs(targets);
    OrderedIff(Sorted(targets));
    JoinIs(Sorted(targets));
  }

  /** That text does not depend on the order of the targets. */
  lemma GroupOrderFree(a: string, targets: seq<string>, b: string, others: seq<string>)
    requires SortedList(a, targets) && SortedList(b, others) && multiset(targets) == multiset(others)
    ensures a == b
  {
    var s :| Ordered(s) && multiset(s) == multiset(targets) && a == Commas(s);
    var t :| Ordered(t) && multiset(t) == multiset(others) && b == Commas(t);
    OrderedIff(s);
    OrderedIff(t);
    OneOrder(s, t);
  }

  // --------------------------------------------------------- the entries

  /** How many entries a step has. */
  function Size(step: Step, targets: seq<string>): nat {
    match step.fanout
    case Once => 1
    case PerTarget => |targets|
  }

  /** Where the entries of step i begin. */
  function Offset(steps: seq<Step>, targets: seq<string>, i: nat): nat
    requires i <= |steps|
  {
    if i == 0 then 0 else Offset(steps, targets, i - 1) + Size(steps[i - 1], targets)
  }

  /** The entry of step i for its j-th target, or for all of them if it runs once. */
  ghost predicate EntryFor(p: Planned, scan: ScanId, wf: Workflow, targets: seq<string>, i: nat, j: nat) {
    && i < |wf.steps|
    && var step := wf.steps[i];
       && p.id.scan == scan && p.id.step == step.name && p.id.tool == step.tool
       && p.deps == step.deps && p.gate == step.gate && p.maxAttempts == wf.maxAttempts
       && match step.fanout {
            case PerTarget => j < |targets| && p.id.group == targets[j] && p.id.params == step.params
            case Once =>
              && j == 0 && SortedList(p.id.group, targets)
              && p.id.params.text == step.params.text && p.id.params.targets == Some(targets)
          }
  }

  /** The plan lists the steps in their order and, within a step, the targets in theirs. */
  ghost predicate Laid(plan: seq<Planned>, scan: ScanId, wf: Workflow, targets: seq<string>, n: nat)
    requires n <= |wf.steps|
  {
    && |plan| == Offset(wf.steps, targets, n)
    && forall i: nat, j: nat | i < n && j < Size(wf.steps[i], targets) :: Placed(plan, scan, wf, targets, i, j)
  }

  ghost predicate Placed(plan: seq<Planned>, scan: ScanId, wf: Workflow, targets: seq<string>, i: nat, j: nat) {
    && i < |wf.steps| && Offset(wf.steps, targets, i) + j < |plan|
    && EntryFor(plan[Offset(wf.steps, targets, i) + j], scan, wf, targets, i, j)
  }

  lemma {:induction false} OffsetsGrow(steps: seq<Step>, targets: seq<string>, i: nat, n: nat)
    requires i < n <= |steps|
    ensures Offset(steps, targets, i) + Size(steps[i], targets) <= Offset(steps, targets, n)
    decreases n
  {
    if i < n - 1 {
      OffsetsGrow(steps, targets, i, n - 1);
    }
  }

  lemma StepEntry(scan: ScanId, wf: Workflow, targets: seq<string>, i: nat, j: nat)
    requires i < |wf.steps| && j < Size(wf.steps[i], targets)
    ensures |PlanStep(scan, wf.maxAttempts, wf.steps[i], targets)| == Size(wf.steps[i], targets)
    ensures EntryFor(PlanStep(scan, wf.maxAttempts, wf.steps[i], targets)[j], scan, wf, targets, i, j)
  {
    if wf.steps[i].fanout.Once? {
      GroupText(targets);
    }
  }

  lemma StepSize(scan: ScanId, wf: Workflow, targets: seq<string>, i: nat)
    requires i < |wf.steps|
    ensures |PlanStep(scan, wf.maxAttempts, wf.steps[i], targets)| == Size(wf.steps[i], targets)
  {
  }

  lemma LaidOn(plan: seq<Planned>, scan: ScanId, wf: Workflow, targets: seq<string>, n: nat, here: seq<Planned>)
    requires n < |wf.steps| && Laid(plan, scan, wf, targets, n) && |here| == Size(wf.steps[n], targets)
    requires forall j: nat | j < |here| :: EntryFor(here[j], scan, wf, targets, n, j)
    ensures Laid(plan + here, scan, wf, targets, n + 1)
  {
    forall i: nat, j: nat | i < n + 1 && j < Size(wf.steps[i], targets) ensures Placed(plan + here, scan, wf, targets, i, j) {
      if i < n {
        OffsetsGrow(wf.steps, targets, i, n);
        assert Placed(plan, scan, wf, targets, i, j);
      } else {
        assert (plan + here)[|plan| + j] == here[j];
      }
    }
  }

  lemma {:induction false} PrefixLaid(scan: ScanId, wf: Workflow, targets: seq<string>, n: nat)
    requires n <= |wf.steps|
    ensures Laid(PlanPrefix(scan, wf, targets, n), scan, wf, targets, n)
  {
    if n > 0 {
      PrefixLaid(scan, wf, targets, n - 1);
      StepSize(scan, wf, targets, n - 1);
      var here := PlanStep(scan, wf.maxAttempts, wf.steps[n - 1], targets);
      forall j: nat | j < |here| ensures EntryFor(here[j], scan, wf, targets, n - 1, j) {
        StepEntry(scan, wf, targets, n - 1, j);
      }
      LaidOn(PlanPrefix(scan, wf, targets, n - 1), scan, wf, targets, n - 1, here);
    }
  }

  /** The whole plan: one entry per step and target, or per step that runs once, each in
      its place and with its contents. */
  lemma PlanLaid(scan: ScanId, wf: Workflow, targets: seq<string>)
    ensures Laid(Plan(scan, wf, targets), scan, wf, targets, |wf.steps|)
  {
    PrefixLaid(scan, wf, targets, |wf.steps|);
  }

  lemma {:induction false} PlaceOf(steps: seq<Step>, targets: seq<string>, n: nat, k: nat) returns (i: nat, j: nat)
    requires n <= |steps| && k < Offset(steps, targets, n)
    ensures i < n && j < Size(steps[i], targets) && k == Offset(steps, targets, i) + j
  {
    if k < Offset(steps, targets, n - 1) {
      i, j := PlaceOf(steps, targets, n - 1, k);
    } else {
      i, j := n - 1, k - Offset(steps, targets, n - 1);
    }
  }

  /** Every entry is one of these; for an accepted workflow its tool is allowed. */
  lemma EveryEntry(scan: ScanId, wf: Workflow, targets: seq<string>, tools: set<string>, p: Planned)
    returns (i: nat, j: nat)
    requires Loadable(wf, tools) && p in Plan(scan, wf, targets)
    ensures EntryFor(p, scan, wf, targets, i, j) && p.id.tool in tools
  {
    var plan := Plan(scan, wf, targets);
    PlanLaid(scan, wf, targets);
    var k: nat :| k < |plan| && plan[k] == p;
    i, j := PlaceOf(wf.steps, targets, |wf.steps|, k);
    assert Placed(plan, scan, wf, targets, i, j);
    assert wf.steps[i] in wf.steps;
  }

  /** The key of a `once` step depends on the order of the targets only through its
      parameters. */
  lemma OnceGroup(scan: ScanId, wf: Workflow, p: Planned, targets: seq<string>, q: Planned, others: seq<string>, i: nat)
    requires EntryFor(p, scan, wf, targets, i, 0) && EntryFor(q, scan, wf, others, i, 0) && wf.steps[i].fanout.Once?
    requires multiset(targets) == multiset(others)
    ensures p.id.group == q.id.group && (p.id == q.id <==> targets == others)
  {
    GroupOrderFree(p.id.group, targets, q.id.group, others);
  }
}
