/** Which entity a parsed finding stands for: the value, type and severity drawn from
    it, and the fingerprint that identifies the entity across scans. */
module Identity {
  import opened Prelude
  import opened Text

  type ProgramId = string

  /** The `str()` of a number is never empty and has no space around it. */
  type Digits = s: string | s != "" && Stripped(s) witness "0"

  /** The value of one field of a parsed finding; `shown` is the `str()` of any other value. */
  datatype Field = Word(text: string) | Number(digits: Digits, zero: bool) | Other(shown: string, empty: bool) {
    predicate Truthy() {
      match this
      case Word(text) => text != ""
      case Number(_, zero) => !zero
      case Other(_, empty) => !empty
    }

    function Show(): string {
      match this
      case Word(text) => text
      case Number(digits, _) => digits
      case Other(shown, _) => shown
    }
  }

  type Finding = map<string, Field>

  /** The text that is hashed; the digest is taken to be injective. */
  type Fingerprint = string

  const VALUE_KEYS: seq<string> := ["value", "subdomain", "url", "host_port", "host", "id"]

  const SEVERITIES: set<string> := {"info", "low", "medium", "high", "critical"}

  /** The first usable value among the given keys, "" if there is none. */
  function FirstValue(f: Finding, keys: seq<string>): string {
    if keys == [] then ""
    else if keys[0] in f && f[keys[0]].Number? then f[keys[0]].digits
    else if keys[0] in f && f[keys[0]].Word? && Strip(f[keys[0]].text) != "" then Strip(f[keys[0]].text)
    else FirstValue(f, keys[1..])
  }

  function Normal(s: string): string {
    Lower(Strip(s))
  }

  function ShownType(f: Finding): string {
    if "type" in f && f["type"].Truthy() then f["type"].Show() else "unknown"
  }

  function TypeOf(f: Finding): string {
    Normal(ShownType(f))
  }

  function SeverityOf(f: Finding): Option<string> {
    if "severity" in f && f["severity"].Word? && f["severity"].text in SEVERITIES
    then Some(f["severity"].text) else None
  }

  function Barred(a: string, b: string): string {
    a + "|" + b
  }

  function EntityFingerprint(program: ProgramId, ftype: string, value: string): Fingerprint {
    Barred(Normal(program), Barred(Normal(ftype), Normal(value)))
  }

  /** What is stored of a finding. */
  datatype Entity = Entity(fp: Fingerprint, ftype: string, value: string, severity: Option<string>, metadata: Finding)

  /** None for a malformed finding, which is skipped. */
  function Identify(program: ProgramId, f: Finding): Option<Entity> {
    var value := FirstValue(f, VALUE_KEYS);
    if value == "" then None
    else Some(Entity(EntityFingerprint(program, TypeOf(f), value), TypeOf(f), value, SeverityOf(f), f))
  }

  function IdentifierOf(program: ProgramId): Finding -> Option<Entity> {
    (f: Finding) => Identify(program, f)
  }

  // ---------------------------------------------- what a finding describes

  /** t is what is left of s without the space around it. */
  ghost predicate Trimmed(s: string, t: string) {
    Stripped(t) && exists a, b :: Spaces(a) && Spaces(b) && s == a + t + b
  }

  /** A number, or a text that is not all space. */
  ghost predicate Usable(v: Field) {
    v.Number? || (v.Word? && !Spaces(v.text))
  }

  ghost predicate Gives(v: Field, value: string) {
    if v.Number? then value == v.digits else v.Word? && Trimmed(v.text, value)
  }

  ghost predicate Supplies(f: Finding, key: string) {
    key in f && Usable(f[key])
  }

  /** The value is that of the first usable key. */
  ghost predicate HasValue(f: Finding, value: string) {
    if Supplies(f, "value") then Gives(f["value"], value)
    else if Supplies(f, "subdomain") then Gives(f["subdomain"], value)
    else if Supplies(f, "url") then Gives(f["url"], value)
    else if Supplies(f, "host_port") then Gives(f["host_port"], value)
    else if Supplies(f, "host") then Gives(f["host"], value)
    else Supplies(f, "id") && Gives(f["id"], value)
  }

  /** No key is usable. */
  ghost predicate Malformed(f: Finding) {
    && !Supplies(f, "value") && !Supplies(f, "subdomain") && !Supplies(f, "url")
    && !Supplies(f, "host_port") && !Supplies(f, "host") && !Supplies(f, "id")
  }

  ghost predicate Untyped(f: Finding) {
    "type" in f ==>
      match f["type"]
      case Word(text) => text == ""
      case Number(_, zero) => zero
      case Other(_, empty) => empty
  }

  ghost predicate Typed(f: Finding, ftype: string) {
    if Untyped(f) then ftype == "unknown" else exists t :: Trimmed(f["type"].Show(), t) && ftype == Lower(t)
  }

  ghost predicate Grades(f: Finding, s: string) {
    && "severity" in f && f["severity"] == Word(s)
    && (s == "critical" || s == "high" || s == "medium" || s == "low" || s == "info")
  }

  ghost predicate Fingerprinted(program: ProgramId, ftype: string, value: string, fp: Fingerprint) {
    exists p :: Trimmed(program, p) && fp == Lower(p) + "|" + ftype + "|" + Lower(value)
  }

  /** What is stored of f, part by part. */
  ghost predicate Describes(program: ProgramId, f: Finding, e: Entity) {
    && HasValue(f, e.value) && Typed(f, e.ftype)
    && (forall s :: e.severity == Some(s) <==> Grades(f, s))
    && e.metadata == f && Fingerprinted(program, e.ftype, e.value, e.fp)
  }

  // ------------------------------------------------------ trimming and case

  lemma SpaceBefore(c: char, a: string, rest: string, s: string, t: string)
    requires Spaces(a) && IsSpace(c) && rest == a + t && s == [c] + rest
    ensures Spaces([c] + a) && s == [c] + a + t
  {
  }

  lemma SpaceAfter(c: char, b: string, rest: string, s: string, t: string)
    requires Spaces(b) && IsSpace(c) && rest == t + b && s == rest + [c]
    ensures Spaces(b + [c]) && s == t + (b + [c])
  {
  }

  lemma StartStep(s: string, rest: string)
    requires s != "" && rest == s[1..]
    ensures StripStart(s) == if IsSpace(s[0]) then StripStart(rest) else s
    ensures s == [s[0]] + rest
  {
  }

  lemma {:induction false} StartTrimmed(s: string, t: string) returns (a: string)
    requires t == StripStart(s)
    ensures Spaces(a) && s == a + t
    decreases |s|, 1
  {
    if s == "" {
      a := "";
    } else {
      a := StartFrom(s, s[1..], t);
    }
  }

  lemma {:induction false} StartFrom(s: string, rest: string, t: string) returns (a: string)
    requires s != "" && rest == s[1..] && t == StripStart(s)
    ensures Spaces(a) && s == a + t
    decreases |s|, 0
  {
    StartStep(s, rest);
    if !IsSpace(s[0]) {
      a := "";
    } else {
      a := StartTrimmed(rest, t);
      SpaceBefore(s[0], a, rest, s, t);
      a := [s[0]] + a;
    }
  }

  lemma {:induction false} EndTrimmed(s: string, t: string) returns (b: string)
    requires t == StripEnd(s)
    ensures Spaces(b) && s == t + b
  {
    b := "";
    if s != "" && IsSpace(s[|s| - 1]) {
      var rest := s[..|s| - 1];
      b := EndTrimmed(rest, t);
      SpaceAfter(s[|s| - 1], b, rest, s, t);
      b := b + [s[|s| - 1]];
    }
  }

  lemma StripTrimmed(s: string)
    ensures Trimmed(s, Strip(s))
  {
    var t := StripStart(s);
    var a := StartTrimmed(s, t);
    var b := EndTrimmed(t, StripEnd(t));
    TrimmedBy(s, a, StripEnd(t), b);
  }

  lemma TrimmedBy(s: string, a: string, t: string, b: string)
    requires Stripped(t) && Spaces(a) && Spaces(b) && s == a + (t + b)
    ensures Trimmed(s, t)
  {
    assert s == a + t + b;
  }

  lemma TrimmedIs(s: string, t: string)
    ensures Trimmed(s, t) <==> t == Strip(s)
  {
    StripTrimmed(s);
    if Trimmed(s, t) {
      var a, b :| Spaces(a) && Spaces(b) && s == a + t + b;
      StripAround(a, t, b);
    }
  }

  lemma SpacesIff(s: string)
    ensures Spaces(s) <==> Trimmed(s, "")
  {
    if Spaces(s) {
      TrimmedBy(s, s, "", "");
    }
  }

  lemma LowerKeeps(s: string)
    ensures Stripped(Lower(s)) <==> Stripped(s)
    ensures Lower(Lower(s)) == Lower(s)
  {
  }

  lemma NormalIs(s: string, t: string)
    requires Trimmed(s, t)
    ensures Normal(s) == Lower(t) && Normal(Lower(t)) == Lower(t)
  {
    TrimmedIs(s, t);
    LowerKeeps(t);
  }

  // ------------------------------------------------ Identify, part by part

  lemma SuppliesIff(f: Finding, key: string)
    requires key in f
    ensures Usable(f[key]) <==> f[key].Number? || (f[key].Word? && Strip(f[key].text) != "")
    ensures f[key].Word? ==> Trimmed(f[key].text, Strip(f[key].text))
  {
    if f[key].Word? {
      SpacesIff(f[key].text);
      TrimmedIs(f[key].text, "");
      StripTrimmed(f[key].text);
    }
  }

  lemma {:induction false} FirstValueIs(f: Finding, keys: seq<string>) returns (i: nat)
    ensures i <= |keys| && forall n: nat | n < i :: !Supplies(f, keys[n])
    ensures i < |keys| ==>
              Supplies(f, keys[i]) && Gives(f[keys[i]], FirstValue(f, keys)) && FirstValue(f, keys) != ""
    ensures i == |keys| ==> FirstValue(f, keys) == ""
  {
    i := 0;
    if keys != [] {
      if keys[0] in f {
        SuppliesIff(f, keys[0]);
      }
      if !Supplies(f, keys[0]) {
        i := FirstValueIs(f, keys[1..]);
        assert forall n: nat | n < i :: keys[1..][n] == keys[n + 1];
        i := i + 1;
      }
    }
  }

  lemma ValueIs(f: Finding, value: string)
    requires value == FirstValue(f, VALUE_KEYS)
    ensures value == "" <==> Malformed(f)
    ensures value != "" ==> HasValue(f, value)
  {
    var i := FirstValueIs(f, VALUE_KEYS);
    var keys := VALUE_KEYS;
    assert keys[0] == "value" && keys[1] == "subdomain" && keys[2] == "url";
    assert keys[3] == "host_port" && keys[4] == "host" && keys[5] == "id";
    assert i == 0 || i == 1 || i == 2 || i == 3 || i == 4 || i == 5 || i == 6;
  }

  lemma NormalText(s: string)
    ensures exists t :: Trimmed(s, t) && Normal(s) == Lower(t)
    ensures Normal(Normal(s)) == Normal(s)
  {
    StripTrimmed(s);
    NormalIs(s, Strip(s));
  }

  lemma AlreadyNormal(s: string)
    requires Stripped(s) && Lower(s) == s
    ensures Normal(s) == s
  {
  }

  lemma ShownIs(f: Finding, s: string)
    requires s == ShownType(f)
    ensures if Untyped(f) then s == "unknown" && Stripped(s) && Lower(s) == s else "type" in f && s == f["type"].Show()
  {
  }

  lemma TypeIs(f: Finding)
    ensures Typed(f, TypeOf(f)) && Normal(TypeOf(f)) == TypeOf(f)
  {
    var s := ShownType(f);
    ShownIs(f, s);
    NormalText(s);
    if Untyped(f) {
      AlreadyNormal(s);
    }
  }

  lemma SeverityIs(f: Finding)
    ensures forall s :: SeverityOf(f) == Some(s) <==> Grades(f, s)
  {
  }

  lemma ValueTrimmed(f: Finding, value: string)
    requires HasValue(f, value)
    ensures value != "" && Stripped(value) && Normal(value) == Lower(value)
  {
    forall key | key in f && Usable(f[key]) && Gives(f[key], value) ensures value != "" && Stripped(value) {
      SuppliesIff(f, key);
      if f[key].Word? {
        TrimmedIs(f[key].text, value);
      }
    }
  }

  lemma FingerprintIs(program: ProgramId, ftype: string, value: string)
    requires Normal(ftype) == ftype && Normal(value) == Lower(value)
    ensures Fingerprinted(program, ftype, value, EntityFingerprint(program, ftype, value))
  {
    NormalText(program);
    var p :| Trimmed(program, p) && Normal(program) == Lower(p);
    BarsFlat(Lower(p), ftype, Lower(value));
  }

  lemma BarsFlat(p: string, t: string, v: string)
    ensures Barred(p, Barred(t, v)) == p + "|" + t + "|" + v
  {
  }

  lemma EntityIs(program: ProgramId, f: Finding, e: Entity)
    requires HasValue(f, e.value) && Typed(f, e.ftype) && Normal(e.ftype) == e.ftype && Normal(e.value) == Lower(e.value)
    requires (forall s :: e.severity == Some(s) <==> Grades(f, s)) && e.metadata == f
    requires e.fp == EntityFingerprint(program, e.ftype, e.value)
    ensures Describes(program, f, e)
  {
    FingerprintIs(program, e.ftype, e.value);
  }

  /** A finding is skipped iff none of its keys is usable; otherwise it is described. */
  lemma IdentifyIs(program: ProgramId, f: Finding)
    ensures Identify(program, f).None? <==> Malformed(f)
    ensures Identify(program, f).Some? ==> Describes(program, f, Identify(program, f).value)
  {
    ValueIs(f, FirstValue(f, VALUE_KEYS));
    var identity := Identify(program, f);
    if identity.Some? {
      ValueTrimmed(f, identity.value.value);
      TypeIs(f);
      SeverityIs(f);
      EntityIs(program, f, identity.value);
    }
  }

  lemma DescribedNamed(program: ProgramId, f: Finding, e: Entity)
    requires Describes(program, f, e)
    ensures !Malformed(f)
  {
    ValueTrimmed(f, e.value);
  }

  // ------------------------------------------------ a description is unique

  lemma TrimmedOne(s: string, t: string, u: string)
    requires Trimmed(s, t) && Trimmed(s, u)
    ensures t == u
  {
    TrimmedIs(s, t);
    TrimmedIs(s, u);
  }

  lemma GivesOne(field: Field, v: string, w: string)
    requires Gives(field, v) && Gives(field, w)
    ensures v == w
  {
    if field.Word? {
      TrimmedOne(field.text, v, w);
    }
  }

  lemma ValueOne(f: Finding, v: string, w: string)
    requires HasValue(f, v) && HasValue(f, w)
    ensures v == w
  {
    forall key | key in f && Gives(f[key], v) && Gives(f[key], w) ensures v == w {
      GivesOne(f[key], v, w);
    }
  }

  lemma TypeOne(f: Finding, t: string, u: string)
    requires Typed(f, t) && Typed(f, u)
    ensures t == u
  {
    if !Untyped(f) {
      var a :| Trimmed(f["type"].Show(), a) && t == Lower(a);
      var b :| Trimmed(f["type"].Show(), b) && u == Lower(b);
      TrimmedOne(f["type"].Show(), a, b);
    }
  }

  /** The description leaves nothing open. */
  lemma DescribesOne(program: ProgramId, f: Finding, e: Entity, d: Entity)
    requires Describes(program, f, e) && Describes(program, f, d)
    ensures e == d
  {
    ValueOne(f, e.value, d.value);
    TypeOne(f, e.ftype, d.ftype);
    var p :| Trimmed(program, p) && e.fp == Lower(p) + "|" + e.ftype + "|" + Lower(e.value);
    var q :| Trimmed(program, q) && d.fp == Lower(q) + "|" + d.ftype + "|" + Lower(d.value);
    TrimmedOne(program, p, q);
    SameSeverity(f, e.severity, d.severity);
  }

  lemma SameSeverity(f: Finding, a: Option<string>, b: Option<string>)
    requires forall s :: a == Some(s) <==> Grades(f, s)
    requires forall s :: b == Some(s) <==> Grades(f, s)
    ensures a == b
  {
    assert a.Some? ==> a == Some(a.value);
    assert b.Some? ==> b == Some(b.value);
  }

  // ---------------------------------------------------- equal fingerprints

  lemma BarInside(a: string, x: string, b: string, y: string)
    requires Barred(a, x) == Barred(b, y) && |a| < |b|
    ensures b[|a|] == '|'
  {
    assert Barred(a, x)[|a|] == '|' && Barred(b, y)[|a|] == b[|a|];
  }

  lemma BarCut(a: string, x: string, b: string, y: string)
    requires Barred(a, x) == Barred(b, y) && |a| == |b|
    ensures a == b && x == y
  {
    assert a == Barred(a, x)[..|a|] && b == Barred(b, y)[..|a|];
    assert x == Barred(a, x)[|a| + 1..] && y == Barred(b, y)[|a| + 1..];
  }

  lemma FirstBar(a: string, x: string, b: string, y: string)
    requires '|' !in a && '|' !in b && Barred(a, x) == Barred(b, y)
    ensures a == b && x == y
  {
    if |a| < |b| {
      BarInside(a, x, b, y);
    } else if |b| < |a| {
      BarInside(b, y, a, x);
    } else {
      BarCut(a, x, b, y);
    }
  }

  /** u starts with t and a bar, and what follows could start a value. */
  ghost predicate Swallows(t: string, u: string) {
    t + "|" <= u && (|u| == |t| + 1 || !IsSpace(u[|t| + 1]))
  }

  /** A value of one of the types could take in what the other type has more. */
  ghost predicate Confusable(t: string, u: string) {
    Swallows(t, u) || Swallows(u, t)
  }

  lemma LongerSwallows(t: string, v: string, u: string, w: string)
    requires Barred(t, v) == Barred(u, w) && |t| < |u| && v != "" && !IsSpace(v[0])
    ensures Swallows(t, u)
  {
    var text := Barred(u, w);
    assert t == Barred(t, v)[..|t|] && u == text[..|u|];
    BarInside(t, v, u, w);
    assert |t| + 1 < |u| ==> u[|t| + 1] == text[|t| + 1] == Barred(t, v)[|t| + 1] == v[0];
  }

  lemma TypesCut(t: string, v: string, u: string, w: string)
    requires Barred(t, v) == Barred(u, w) && !Confusable(t, u)
    requires v != "" && w != "" && !IsSpace(v[0]) && !IsSpace(w[0])
    ensures t == u && v == w
  {
    if |t| < |u| {
      LongerSwallows(t, v, u, w);
    } else if |u| < |t| {
      LongerSwallows(u, w, t, v);
    } else {
      BarCut(t, v, u, w);
    }
  }

  /** a and b agree up to case and surrounding space. */
  ghost predicate SameText(a: string, b: string) {
    exists t, u :: Trimmed(a, t) && Trimmed(b, u) && Lower(t) == Lower(u)
  }

  lemma NoBar(s: string, t: string)
    requires Trimmed(s, t) && '|' !in s
    ensures '|' !in Lower(t)
  {
    var a, b :| Spaces(a) && Spaces(b) && s == a + t + b;
    assert forall c | c in t :: c in s;
  }

  lemma SameTextIs(a: string, t: string, b: string, u: string)
    requires Trimmed(a, t) && Trimmed(b, u)
    ensures SameText(a, b) <==> Lower(t) == Lower(u)
  {
    if SameText(a, b) {
      var x, y :| Trimmed(a, x) && Trimmed(b, y) && Lower(x) == Lower(y);
      TrimmedOne(a, x, t);
      TrimmedOne(b, y, u);
    }
  }

  lemma PartsAgree(p: string, t: string, v: string, q: string, u: string, w: string)
    requires p == q || ('|' !in p && '|' !in q)
    requires v != "" && w != "" && !IsSpace(v[0]) && !IsSpace(w[0]) && !Confusable(t, u)
    ensures p + "|" + t + "|" + v == q + "|" + u + "|" + w <==> p == q && t == u && v == w
  {
    BarsFlat(p, t, v);
    BarsFlat(q, u, w);
    if Barred(p, Barred(t, v)) == Barred(q, Barred(u, w)) {
      if p == q {
        BarCut(p, Barred(t, v), q, Barred(u, w));
      } else {
        FirstBar(p, Barred(t, v), q, Barred(u, w));
      }
      TypesCut(t, v, u, w);
    }
  }

  lemma ValueStarts(f: Finding, value: string)
    requires HasValue(f, value)
    ensures Lower(value) != "" && !IsSpace(Lower(value)[0])
  {
    ValueTrimmed(f, value);
  }

  /** Two findings get one fingerprint iff program, type and value agree up to case and
      surrounding space, whatever the findings hold otherwise. */
  lemma FingerprintsIdentify(p: ProgramId, f: Finding, e: Entity, q: ProgramId, g: Finding, d: Entity)
    requires Describes(p, f, e) && Describes(q, g, d) && !Confusable(e.ftype, d.ftype)
    requires p == q || ('|' !in p && '|' !in q)
    ensures e.fp == d.fp <==> SameText(p, q) && e.ftype == d.ftype && Lower(e.value) == Lower(d.value)
  {
    var x :| Trimmed(p, x) && e.fp == Lower(x) + "|" + e.ftype + "|" + Lower(e.value);
    var y :| Trimmed(q, y) && d.fp == Lower(y) + "|" + d.ftype + "|" + Lower(d.value);
    SameTextIs(p, x, q, y);
    if p == q {
      TrimmedOne(p, x, y);
    } else {
      NoBar(p, x);
      NoBar(q, y);
    }
    ValueStarts(f, e.value);
    ValueStarts(g, d.value);
    PartsAgree(Lower(x), e.ftype, Lower(e.value), Lower(y), d.ftype, Lower(d.value));
  }

  /** The condition on the types is needed: two findings of confusable types get one
      fingerprint once their values are chosen so. */
  lemma TypesConfused(program: ProgramId, f: Finding, g: Finding, t: string, u: string)
    returns (v: string, w: string, e: Entity, d: Entity)
    requires Typed(f, t) && Typed(g, u) && Swallows(t, u)
    ensures Describes(program, f["value" := Word(v)], e) && Describes(program, g["value" := Word(w)], d)
    ensures e.ftype == t != u == d.ftype && e.fp == d.fp
  {
    v, w := u[|t| + 1..] + "|x", "x";
    e := Describe(program, f, t, v);
    d := Describe(program, g, u, w);
    LowerType(g, u);
    SwallowedText(t, u, v, w);
    var x :| Trimmed(program, x) && e.fp == Lower(x) + "|" + t + "|" + Lower(v);
    var y :| Trimmed(program, y) && d.fp == Lower(y) + "|" + u + "|" + Lower(w);
    TrimmedOne(program, x, y);
    BarsFlat(Lower(x), t, Lower(v));
    BarsFlat(Lower(x), u, Lower(w));
  }

  lemma Describe(program: ProgramId, f: Finding, t: string, v: string) returns (e: Entity)
    requires Typed(f, t) && Stripped(v) && v != ""
    ensures Describes(program, f["value" := Word(v)], e) && e.ftype == t && e.value == v
  {
    var named := f["value" := Word(v)];
    NamedHas(f, v, named);
    e := DescribedBy(program, named);
    ValueOne(named, v, e.value);
    TypeKept(f, t, named);
    TypeOne(named, t, e.ftype);
  }

  lemma NamedHas(f: Finding, v: string, named: Finding)
    requires named == f["value" := Word(v)] && Stripped(v) && v != ""
    ensures HasValue(named, v) && !Malformed(named)
  {
    TrimmedBy(v, "", v, "");
    assert v[0] in v;
  }

  lemma DescribedBy(program: ProgramId, f: Finding) returns (e: Entity)
    requires !Malformed(f)
    ensures Describes(program, f, e)
  {
    IdentifyIs(program, f);
    e := Identify(program, f).value;
  }

  lemma TypeKept(f: Finding, t: string, g: Finding)
    requires Typed(f, t) && ("type" in f <==> "type" in g) && ("type" in f ==> g["type"] == f["type"])
    ensures Typed(g, t)
  {
  }

  lemma LowerType(f: Finding, t: string)
    requires Typed(f, t)
    ensures Lower(t) == t
  {
    if !Untyped(f) {
      var a :| Trimmed(f["type"].Show(), a) && t == Lower(a);
      LowerKeeps(a);
    }
  }

  lemma SwallowedText(t: string, u: string, v: string, w: string)
    requires Swallows(t, u) && Lower(u) == u && v == u[|t| + 1..] + "|x" && w == "x"
    ensures v != "" && Stripped(v) && Barred(t, Lower(v)) == Barred(u, Lower(w))
  {
    assert forall i | 0 <= i < |u| :: u[i] == LowerChar(u[i]);
    assert Lower(v) == u[|t| + 1..] + "|x" && Lower(w) == "x";
    assert u == t + "|" + u[|t| + 1..];
  }
}
