/** The two scope gates around a scan: the master's admission of targets and the
    worker's check of what a task carries. */
module Admission {
  import opened Prelude
  import opened Scope
  import Text

  predicate Lets(decision: Outcome<Decision>) {
    decision.Ok? && decision.value.allowed
  }

  function EvaluatorOf(lib: Library, entries: seq<Entry>): string -> Outcome<Decision> {
    (target: string) => Evaluate(lib, target, entries)
  }

  lemma SameJudgement(lib: Library, entries: seq<Entry>, t: string)
    ensures Lets(EvaluatorOf(lib, entries)(t)) <==> Permits(lib, t, entries)
    ensures EvaluatorOf(lib, entries)(t).AddressError? <==> Evaluate(lib, t, entries).AddressError?
  {
  }

  /** The master's verdict on one submitted target, from its normal form: Ok with that
      form, InvalidTarget when it is turned down, AddressError when the request fails. */
  function AdmitBy(normal: Outcome<string>, evaluate: string -> Outcome<Decision>): Outcome<string> {
    match normal
    case Ok(target) => (
      match evaluate(target)
      case Ok(decision) => if decision.allowed then Ok(target) else InvalidTarget
      case InvalidTarget => InvalidTarget
      case AddressError => AddressError)
    case InvalidTarget => InvalidTarget
    case AddressError => AddressError
  }

  function Admit(lib: Library, raw: string, entries: seq<Entry>): Outcome<string> {
    AdmitBy(Normalize(lib, raw), EvaluatorOf(lib, entries))
  }

  function AdmitterOf(lib: Library, entries: seq<Entry>): string -> Outcome<string> {
    (raw: string) => Admit(lib, raw, entries)
  }

  /** The admitted targets, in order, repetitions included. */
  ghost function Admitted(lib: Library, raws: seq<string>, entries: seq<Entry>): seq<string> {
    Oks(Mapped(AdmitterOf(lib, entries), raws))
  }

  /** A target is admitted under its normal form iff that form is permitted; the request
      fails iff the decision on it ends in an address error. */
  lemma AdmitIff(lib: Library, raw: string, entries: seq<Entry>, target: string)
    ensures Admit(lib, raw, entries) == Ok(target) <==>
            Normalize(lib, raw) == Ok(target) && Permits(lib, target, entries)
    ensures Admit(lib, raw, entries).AddressError? <==> Breaks(lib, raw, entries)
  {
    NeverAddressError(lib, raw);
    AdmitByIff(Normalize(lib, raw), EvaluatorOf(lib, entries), target);
    SameJudgement(lib, entries, target);
    if Normalize(lib, raw).Ok? {
      SameJudgement(lib, entries, Normalize(lib, raw).value);
    }
  }

  lemma AdmitByIff(normal: Outcome<string>, evaluate: string -> Outcome<Decision>, target: string)
    ensures AdmitBy(normal, evaluate) == Ok(target) <==> normal == Ok(target) && Lets(evaluate(target))
    ensures AdmitBy(normal, evaluate).AddressError? <==>
            normal.AddressError? || (normal.Ok? && evaluate(normal.value).AddressError?)
  {
  }

  lemma NeverAddressError(lib: Library, raw: string)
    ensures !Normalize(lib, raw).AddressError?
  {
  }

  ghost predicate Breaks(lib: Library, raw: string, entries: seq<Entry>) {
    Normalize(lib, raw).Ok? && Evaluate(lib, Normalize(lib, raw).value, entries).AddressError?
  }

  ghost predicate Admissible(lib: Library, raw: string, entries: seq<Entry>) {
    Normalize(lib, raw).Ok? && Permits(lib, Normalize(lib, raw).value, entries)
  }

  /** Exactly the admissible targets, each in its normal form, in their order. */
  ghost predicate AdmittedFrom(lib: Library, raws: seq<string>, entries: seq<Entry>, targets: seq<string>, picks: seq<nat>) {
    && Places(picks, |raws|) && |picks| == |targets|
    && (forall k | 0 <= k < |picks| ::
          Normalize(lib, raws[picks[k]]) == Ok(targets[k]) && Permits(lib, targets[k], entries))
    && forall i: nat | i < |raws| && i !in picks :: !Admissible(lib, raws[i], entries)
  }

  lemma AdmittedPicks(lib: Library, raws: seq<string>, entries: seq<Entry>) returns (picks: seq<nat>)
    ensures AdmittedFrom(lib, raws, entries, Admitted(lib, raws, entries), picks)
  {
    var outcomes := Mapped(AdmitterOf(lib, entries), raws);
    picks := OksPicks(outcomes);
    forall k | 0 <= k < |picks|
      ensures Normalize(lib, raws[picks[k]]) == Ok(Oks(outcomes)[k]) && Permits(lib, Oks(outcomes)[k], entries)
    {
      AdmitIff(lib, raws[picks[k]], entries, Oks(outcomes)[k]);
    }
    forall i: nat | i < |raws| && i !in picks ensures !Admissible(lib, raws[i], entries) {
      NotAdmitted(lib, raws[i], entries, outcomes[i]);
    }
  }

  lemma NotAdmitted(lib: Library, raw: string, entries: seq<Entry>, outcome: Outcome<string>)
    requires outcome == Admit(lib, raw, entries) && !outcome.Ok?
    ensures !Admissible(lib, raw, entries)
  {
    if Normalize(lib, raw).Ok? {
      AdmitIff(lib, raw, entries, Normalize(lib, raw).value);
    }
  }

  /** The target loop of a submission; None when the request fails. */
  method AdmitTargets(lib: Library, raws: seq<string>, entries: seq<Entry>) returns (targets: Option<seq<string>>)
    ensures targets.Some? ==> targets.value == Admitted(lib, raws, entries)
    ensures targets.Some? ==> exists picks :: AdmittedFrom(lib, raws, entries, targets.value, picks)
    ensures targets.None? <==> exists raw :: raw in raws && Breaks(lib, raw, entries)
  {
    targets := AdmitAll(AdmitterOf(lib, entries), raws);
    ghost var picks := AdmittedPicks(lib, raws, entries);
    forall raw ensures AdmitterOf(lib, entries)(raw).AddressError? <==> Breaks(lib, raw, entries) {
      AdmitIff(lib, raw, entries, "");
    }
  }

  method AdmitAll(admit: string -> Outcome<string>, raws: seq<string>) returns (targets: Option<seq<string>>)
    ensures targets.Some? ==> targets.value == Oks(Mapped(admit, raws))
    ensures targets.None? <==> exists raw :: raw in raws && admit(raw).AddressError?
  {
    var admitted: seq<string> := [];
    ghost var outcomes := Mapped(admit, raws);
    for i := 0 to |raws|
      invariant admitted == Oks(outcomes[..i])
      invariant forall k | 0 <= k < i :: !admit(raws[k]).AddressError?
    {
      assert outcomes[..i + 1][..i] == outcomes[..i];
      match admit(raws[i]) {
        case Ok(target) => admitted := admitted + [target];
        case InvalidTarget =>
        case AddressError =>
          assert raws[i] in raws;
          return None;
      }
    }
    assert outcomes[..|raws|] == outcomes;
    return Some(admitted);
  }

  lemma {:induction false} OksMember<T>(outcomes: seq<Outcome<T>>, x: T) returns (i: nat)
    requires x in Oks(outcomes)
    ensures i < |outcomes| && outcomes[i] == Ok(x)
  {
    var last := outcomes[|outcomes| - 1];
    if last == Ok(x) {
      i := |outcomes| - 1;
    } else {
      i := OksMember(outcomes[..|outcomes| - 1], x);
    }
  }

  lemma AdmittedBecause(lib: Library, raws: seq<string>, entries: seq<Entry>, target: string) returns (raw: string)
    requires target in Admitted(lib, raws, entries)
    ensures raw in raws && Normalize(lib, raw) == Ok(target) && Permits(lib, target, entries)
  {
    raw := MappedFrom(AdmitterOf(lib, entries), raws, target);
    AdmitIff(lib, raw, entries, target);
  }

  lemma MappedFrom(admit: string -> Outcome<string>, raws: seq<string>, target: string) returns (raw: string)
    requires target in Oks(Mapped(admit, raws))
    ensures raw in raws && admit(raw) == Ok(target)
  {
    var i := OksMember(Mapped(admit, raws), target);
    raw := raws[i];
  }

  lemma NormalHasNoComma(lib: Library, raw: string, target: string)
    requires Normalize(lib, raw) == Ok(target)
    ensures ',' !in target
  {
    var host := Host(Text.Lower(Text.Strip(raw)));
    assert Checked(lib, host) == Ok(target);
    SafeHasNoComma(lib, host, target);
  }

  lemma SafeHasNoComma(lib: Library, host: string, target: string)
    requires Checked(lib, host) == Ok(target)
    ensures ',' !in target
  {
    var safe := if Ascii(host) || '*' in host || LooksLikeIpv6(host) then host else Text.Lower(lib.idna(host).value);
    assert SafeForm(safe) == Ok(target);
    SafeStripDots(safe);
    var core := BeforeNewline(target);
    forall i | 0 <= i < |target| ensures target[i] != ',' {
      if i < |core| {
        assert core[i] in core && core[i] == target[i];
      }
    }
  }

  // ------------------------------------------------------- the worker's gate

  datatype Gate = Open | Shut | Broken

  /** What the worker checks: the target list of a `once` task, else its target. */
  function ToCheck(listed: Option<seq<string>>, target: string): seq<string> {
    if listed.Some? && listed.value != [] then listed.value
    else if target != "" then [target] else []
  }

  /** The worker's loop stops at the first candidate that is not let through. */
  ghost predicate BreaksAt(evaluate: string -> Outcome<Decision>, targets: seq<string>, i: nat) {
    i < |targets| && evaluate(targets[i]).AddressError? && forall k | 0 <= k < i :: Lets(evaluate(targets[k]))
  }

  /** The check stops with an error at the i-th candidate, the ones before being let through. */
  ghost predicate StopsAt(lib: Library, entries: seq<Entry>, candidates: seq<string>, i: nat) {
    && i < |candidates| && Evaluate(lib, candidates[i], entries).AddressError?
    && forall k | 0 <= k < i :: Permits(lib, candidates[k], entries)
  }

  lemma SameStop(lib: Library, entries: seq<Entry>, candidates: seq<string>, i: nat)
    ensures BreaksAt(EvaluatorOf(lib, entries), candidates, i) <==> StopsAt(lib, entries, candidates, i)
  {
    forall k | 0 <= k < |candidates|
      ensures Lets(EvaluatorOf(lib, entries)(candidates[k])) <==> Permits(lib, candidates[k], entries)
      ensures EvaluatorOf(lib, entries)(candidates[k]).AddressError? <==> Evaluate(lib, candidates[k], entries).AddressError?
    {
      SameJudgement(lib, entries, candidates[k]);
    }
  }

  /** The scope check of a task: of every target in its list, if it has one that is not
      empty, and else of its own target. */
  method ScopeGate(lib: Library, entries: seq<Entry>, listed: Option<seq<string>>, target: string)
    returns (gate: Gate)
    ensures listed.Some? && listed.value != [] ==>
              (gate.Open? <==> forall t | t in listed.value :: Permits(lib, t, entries)) &&
              (gate.Broken? <==> exists i :: StopsAt(lib, entries, listed.value, i))
    ensures listed.None? || listed.value == [] ==>
              (gate.Open? <==> target != "" && Permits(lib, target, entries)) &&
              (gate.Broken? <==> target != "" && Evaluate(lib, target, entries).AddressError?)
  {
    gate := GateOf(EvaluatorOf(lib, entries), listed, target);
    forall t ensures Lets(EvaluatorOf(lib, entries)(t)) <==> Permits(lib, t, entries) {
      SameJudgement(lib, entries, t);
    }
    SameJudgement(lib, entries, target);
    if listed.Some? {
      forall i: nat
        ensures BreaksAt(EvaluatorOf(lib, entries), listed.value, i) <==> StopsAt(lib, entries, listed.value, i)
      {
        SameStop(lib, entries, listed.value, i);
      }
    }
  }

  method GateOf(evaluate: string -> Outcome<Decision>, listed: Option<seq<string>>, target: string)
    returns (gate: Gate)
    ensures listed.Some? && listed.value != [] ==>
              (gate.Open? <==> forall t | t in listed.value :: Lets(evaluate(t))) &&
              (gate.Broken? <==> exists i :: BreaksAt(evaluate, listed.value, i))
    ensures listed.None? || listed.value == [] ==>
              (gate.Open? <==> target != "" && Lets(evaluate(target))) &&
              (gate.Broken? <==> target != "" && evaluate(target).AddressError?)
  {
    gate := CheckAll(evaluate, ToCheck(listed, target));
    if ToCheck(listed, target) == [target] {
      assert BreaksAt(evaluate, [target], 0) <==> evaluate(target).AddressError?;
    }
  }

  method CheckAll(evaluate: string -> Outcome<Decision>, targets: seq<string>) returns (gate: Gate)
    ensures gate.Open? <==> targets != [] && forall t | t in targets :: Lets(evaluate(t))
    ensures gate.Broken? <==> exists i :: BreaksAt(evaluate, targets, i)
  {
    if targets == [] {
      return Shut;
    }
    for i := 0 to |targets|
      invariant forall k | 0 <= k < i :: Lets(evaluate(targets[k]))
    {
      var decision := evaluate(targets[i]);
      if decision.AddressError? {
        assert targets[i] in targets && BreaksAt(evaluate, targets, i);
        return Broken;
      }
      if !Lets(decision) {
        assert targets[i] in targets;
        return Shut;
      }
    }
    return Open;
  }

  /** The target field of a message: blank for a list. */
  function MessageTarget(group: string): (target: string)
    ensures ',' !in target && (target != "" ==> target == group) && (',' !in group ==> target == group)
  {
    if ',' in group then "" else group
  }

  lemma PermittedNotEmpty(lib: Library, entries: seq<Entry>)
    ensures !Permits(lib, "", entries)
  {
    assert NormalShape("");
    FixpointIff(lib, "");
    EmptyInvalid(lib);
  }

  lemma EmptyInvalid(lib: Library)
    ensures Normalize(lib, "") == InvalidTarget
  {
    var none := "";
    SafeStripped(none);
    PlainHost(none);
    PlainChecked(lib, none, StripBrackets(none));
  }

  // ------------------------------------------- messages, sent or rebuilt

  datatype Value = One(text: string) | Many(items: seq<string>)

  type Fields = map<string, Value>

  /** What a message carries for the gate. */
  datatype Sent = Sent(target: string, params: Fields)

  /** The message that a submission sends for a root. */
  function Direct(group: string, params: Fields): Sent {
    Sent(MessageTarget(group), params)
  }

  /** The payload column of the row: the parameters are laid over the target. */
  function Payload(group: string, params: Fields): Fields {
    map["target" := One(group)] + params
  }

  /** The message that the dispatcher makes of the row; `show` renders a list as text. */
  function Rebuilt(show: seq<string> -> string, payload: Fields): Sent {
    var target := if "target" !in payload then ""
                  else if payload["target"].One? then payload["target"].text else show(payload["target"].items);
    Sent(MessageTarget(target), payload - {"target"})
  }

  /** The dispatcher's message is the one that a submission would have sent, with the
      step's own parameters, unless those have a `target`; that one is then taken for
      the target and missing from the parameters. */
  lemma RebuiltIsDirect(show: seq<string> -> string, group: string, params: Fields)
    ensures Rebuilt(show, Payload(group, params)) == Direct(group, params) <==> "target" !in params
    ensures Direct(group, params).params == params
    ensures Direct(group, params).target == if ',' in group then "" else group
    ensures "target" in params && params["target"].One? && ',' !in params["target"].text ==>
              Rebuilt(show, Payload(group, params)) == Sent(params["target"].text, params - {"target"})
  {
    var again := Payload(group, params) - {"target"};
    assert again == params - {"target"};
    if "target" !in params {
      assert again == params;
    } else {
      assert "target" !in again;
    }
  }

  /** `targets` may be a list, or a text that is gone through character by character. */
  function Listed(params: Fields): Option<seq<string>> {
    if "targets" !in params then None
    else match params["targets"]
      case Many(items) => Some(items)
      case One(text) => Some(seq(|text|, i requires 0 <= i < |text| => [text[i]]))
  }

  ghost predicate PassesGate(evaluate: string -> Outcome<Decision>, m: Sent) {
    && ToCheck(Listed(m.params), m.target) != []
    && forall t | t in ToCheck(Listed(m.params), m.target) :: Lets(evaluate(t))
  }

  /** A message of the plan over the targets: for one of them, or for all in a `once`
      step, sent by the submission or rebuilt by the dispatcher. */
  ghost predicate OfPlan(show: seq<string> -> string, targets: seq<string>, params: Fields, m: Sent) {
    exists group, fields ::
      && ((group in targets && fields == params) || fields == params["targets" := Many(targets)])
      && (m == Direct(group, fields) || m == Rebuilt(show, Payload(group, fields)))
  }

  /** The gate of a message: a list that is not empty is checked in full, a text that
      stands in its place character by character, and else the target. */
  lemma GateOfMessage(evaluate: string -> Outcome<Decision>, m: Sent)
    ensures "targets" in m.params && m.params["targets"].Many? && m.params["targets"].items != [] ==>
              (PassesGate(evaluate, m) <==> forall t | t in m.params["targets"].items :: Lets(evaluate(t)))
    ensures "targets" in m.params && m.params["targets"].One? && m.params["targets"].text != "" ==>
              (PassesGate(evaluate, m) <==> forall c | c in m.params["targets"].text :: Lets(evaluate([c])))
    ensures "targets" !in m.params || m.params["targets"] == Many([]) || m.params["targets"] == One("") ==>
              (PassesGate(evaluate, m) <==> m.target != "" && Lets(evaluate(m.target)))
  {
    if "targets" in m.params && m.params["targets"].One? {
      OneByOne(evaluate, m.params["targets"].text);
    }
  }

  lemma OneByOne(evaluate: string -> Outcome<Decision>, text: string)
    ensures var parts := seq(|text|, i requires 0 <= i < |text| => [text[i]]);
            (forall t | t in parts :: Lets(evaluate(t))) <==> forall c | c in text :: Lets(evaluate([c]))
  {
    var parts := seq(|text|, i requires 0 <= i < |text| => [text[i]]);
    if forall t | t in parts :: Lets(evaluate(t)) {
      forall c | c in text ensures Lets(evaluate([c])) {
        var i :| 0 <= i < |text| && text[i] == c;
        assert parts[i] in parts;
      }
    }
  }

  lemma AlonePasses(evaluate: string -> Outcome<Decision>, target: string, params: Fields)
    requires "targets" !in params && target != "" && ',' !in target && Lets(evaluate(target))
    ensures PassesGate(evaluate, Direct(target, params))
  {
    assert ToCheck(Listed(params), MessageTarget(target)) == [target];
  }

  lemma ListPasses(evaluate: string -> Outcome<Decision>, targets: seq<string>, group: string, params: Fields)
    requires targets != [] && forall t | t in targets :: Lets(evaluate(t))
    ensures PassesGate(evaluate, Direct(group, params["targets" := Many(targets)]))
  {
    assert ToCheck(Listed(params["targets" := Many(targets)]), MessageTarget(group)) == targets;
  }

  lemma PlanPasses(evaluate: string -> Outcome<Decision>, show: seq<string> -> string, targets: seq<string>,
                   params: Fields, m: Sent)
    requires targets != [] && forall t | t in targets :: t != "" && ',' !in t && Lets(evaluate(t))
    requires OfPlan(show, targets, params, m) && "target" !in params && "targets" !in params
    ensures PassesGate(evaluate, m)
  {
    var group, fields :|
      && ((group in targets && fields == params) || fields == params["targets" := Many(targets)])
      && (m == Direct(group, fields) || m == Rebuilt(show, Payload(group, fields)));
    RebuiltIsDirect(show, group, fields);
    if fields == params {
      AlonePasses(evaluate, group, params);
    } else {
      ListPasses(evaluate, targets, group, params);
    }
  }

  /** Whatever the master admits passes the worker's gate on the same rows: every message
      of its plan does, provided that the step's own parameters name no target. */
  lemma AdmittedPassesGate(lib: Library, show: seq<string> -> string, raws: seq<string>, entries: seq<Entry>,
                           params: Fields, m: Sent)
    requires Admitted(lib, raws, entries) != [] && OfPlan(show, Admitted(lib, raws, entries), params, m)
    requires "target" !in params && "targets" !in params
    ensures PassesGate(EvaluatorOf(lib, entries), m)
  {
    forall t | t in Admitted(lib, raws, entries)
      ensures t != "" && ',' !in t && Lets(EvaluatorOf(lib, entries)(t))
    {
      AdmittedIsPlain(lib, raws, entries, t);
    }
    PlanPasses(EvaluatorOf(lib, entries), show, Admitted(lib, raws, entries), params, m);
  }

  /** An admitted target is let through, not empty and without a comma. */
  lemma AdmittedIsPlain(lib: Library, raws: seq<string>, entries: seq<Entry>, target: string)
    requires target in Admitted(lib, raws, entries)
    ensures target != "" && ',' !in target && Lets(EvaluatorOf(lib, entries)(target))
  {
    var raw := AdmittedBecause(lib, raws, entries, target);
    NormalHasNoComma(lib, raw, target);
    PermittedNotEmpty(lib, entries);
  }
}
