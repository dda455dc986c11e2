/** Scope decisions: patterns, target normalization, and the policy itself. */
module Scope {
  import opened Prelude
  import opened Text

  // ------------------------------------------------------------- strings

  function EndsWith(s: string, end: string): bool {
    |end| <= |s| && s[|s| - |end|..] == end
  }

  function Dotted(a: string, b: string): string {
    a + "." + b
  }

  function PutFirst(c: char, labels: seq<string>): (r: seq<string>)
    requires labels != []
    ensures r != []
  {
    [[c] + labels[0]] + labels[1..]
  }

  /** `s.split(".")`. */
  function Split(s: string): (labels: seq<string>)
    ensures labels != []
  {
    if s == "" then [""]
    else if s[0] == '.' then [""] + Split(s[1..])
    else PutFirst(s[0], Split(s[1..]))
  }

  function JoinDots(labels: seq<string>): string
    requires labels != []
  {
    if |labels| == 1 then labels[0] else Dotted(labels[0], JoinDots(labels[1..]))
  }

  ghost predicate IsSuffix<T>(end: seq<T>, s: seq<T>) {
    |end| <= |s| && s[|s| - |end|..] == end
  }

  lemma JoinPutFirst(c: char, labels: seq<string>)
    requires labels != []
    ensures JoinDots(PutFirst(c, labels)) == [c] + JoinDots(labels)
  {
    assert PutFirst(c, labels)[1..] == labels[1..];
    if |labels| > 1 {
      var rest := JoinDots(labels[1..]);
      assert Dotted([c] + labels[0], rest) == [c] + Dotted(labels[0], rest);
    }
  }

  lemma {:induction false} JoinSplit(s: string)
    ensures JoinDots(Split(s)) == s
  {
    if s != "" {
      JoinSplit(s[1..]);
      var rest := Split(s[1..]);
      if s[0] == '.' {
        assert ([""] + rest)[1..] == rest;
        assert Dotted("", s[1..]) == s;
      } else {
        JoinPutFirst(s[0], rest);
        assert [s[0]] + s[1..] == s;
      }
    }
  }

  lemma PutFirstAppend(c: char, a: seq<string>, b: seq<string>)
    requires a != []
    ensures PutFirst(c, a + b) == PutFirst(c, a) + b
  {
  }

  lemma {:induction false} SplitAppend(a: string, b: string)
    ensures Split(Dotted(a, b)) == Split(a) + Split(b)
  {
    var s := Dotted(a, b);
    if a == "" {
      assert s[0] == '.' && s[1..] == b;
    } else {
      assert s[0] == a[0] && s[1..] == Dotted(a[1..], b);
      SplitAppend(a[1..], b);
      if a[0] != '.' {
        PutFirstAppend(a[0], Split(a[1..]), Split(b));
      }
    }
  }

  lemma DottedAssociates(a: string, b: string, c: string)
    ensures Dotted(a, Dotted(b, c)) == Dotted(Dotted(a, b), c)
  {
  }

  lemma {:induction false} JoinAppend(a: seq<string>, b: seq<string>)
    requires a != [] && b != []
    ensures JoinDots(a + b) == Dotted(JoinDots(a), JoinDots(b))
  {
    assert (a + b)[1..] == a[1..] + b;
    if |a| > 1 {
      JoinAppend(a[1..], b);
      DottedAssociates(a[0], JoinDots(a[1..]), JoinDots(b));
    }
  }

  lemma EndsWithSplits(target: string, domain: string)
    requires EndsWith(target, "." + domain)
    ensures target == Dotted(target[..|target| - |domain| - 1], domain)
  {
  }

  lemma DottedEndsWith(a: string, domain: string)
    ensures EndsWith(Dotted(a, domain), "." + domain)
  {
    assert Dotted(a, domain) == a + ("." + domain);
  }

  /** The `endswith` test with a leading dot means: the pattern's labels are a strict
      suffix of the target's. */
  lemma DottedSuffix(target: string, domain: string)
    ensures EndsWith(target, "." + domain) <==>
            IsSuffix(Split(domain), Split(target)) && |Split(domain)| < |Split(target)|
  {
    if EndsWith(target, "." + domain) {
      var a := target[..|target| - |domain| - 1];
      EndsWithSplits(target, domain);
      SplitAppend(a, domain);
    }
    if IsSuffix(Split(domain), Split(target)) && |Split(domain)| < |Split(target)| {
      SuffixEndsWith(target, domain);
    }
  }

  lemma SuffixEndsWith(target: string, domain: string)
    requires IsSuffix(Split(domain), Split(target)) && |Split(domain)| < |Split(target)|
    ensures EndsWith(target, "." + domain)
  {
    var a := Split(target)[..|Split(target)| - |Split(domain)|];
    assert a + Split(domain) == Split(target);
    JoinSplit(target);
    JoinSplit(domain);
    JoinAppend(a, Split(domain));
    DottedEndsWith(JoinDots(a), domain);
  }

  // ------------------------------------------------------------- entries

  /** The library calls that are not part of this model: address and network parsing,
      containment, and IDNA encoding. */
  datatype Library = Library(
    isAddress: string -> bool,
    network: string -> Option<string>,
    hostNetwork: string -> string,
    contains: (string, string) -> bool,
    hardBlocked: string -> bool,
    idna: string -> Option<string>)

  datatype Kind = Domain | Wildcard | Cidr

  datatype Entry = Entry(pattern: string, kind: Kind, allowed: bool)

  datatype Outcome<+T> = Ok(value: T) | InvalidTarget | AddressError

  function RStripDots(s: string): (r: string)
    ensures r == "" || r[|r| - 1] != '.'
    ensures r <= s && ((s == "" || s[|s| - 1] != '.') ==> r == s)
  {
    if s != "" && s[|s| - 1] == '.' then RStripDots(s[..|s| - 1]) else s
  }

  predicate LabelChar(c: char) {
    'a' <= c <= 'z' || '0' <= c <= '9' || c == '_' || c == '-'
  }

  /** `$` also matches before a final newline. */
  function BeforeNewline(s: string): string {
    if s != "" && s[|s| - 1] == '\n' then s[..|s| - 1] else s
  }

  predicate LabelMatches(part: string) {
    var core := BeforeNewline(part);
    1 <= |core| <= 63 && (forall c | c in core :: LabelChar(c)) && core[0] != '-' && core[|core| - 1] != '-'
  }

  predicate ValidDomain(domain: string) {
    |domain| <= 253 && forall part | part in Split(domain) :: 1 <= |part| <= 63 && LabelMatches(part)
  }

  function Cleaned(pattern: string): string {
    RStripDots(Lower(Strip(pattern)))
  }

  /** The domain that a cleaned pattern names: behind the wildcard, if it has one. */
  function Stem(raw: string): string {
    if "*." <= raw then raw[2..] else raw
  }

  predicate NamesNetwork(lib: Library, raw: string) {
    !("*." <= raw) && (lib.network(raw).Some? || lib.isAddress(raw))
  }

  function Parse(lib: Library, pattern: string, allowed: bool): (r: Outcome<Entry>)
    ensures r.Ok? || r.InvalidTarget?
    ensures r.Ok? <==> NamesNetwork(lib, Cleaned(pattern)) || ValidDomain(Stem(Cleaned(pattern)))
    ensures r.Ok? ==> r.value.allowed == allowed && (r.value.kind.Cidr? <==> NamesNetwork(lib, Cleaned(pattern)))
    ensures r.Ok? && !r.value.kind.Cidr? ==> r.value.pattern == Cleaned(pattern) && ValidDomain(Stem(r.value.pattern))
    ensures r.Ok? && !r.value.kind.Cidr? ==> (r.value.kind.Wildcard? <==> "*." <= r.value.pattern)
    ensures r.Ok? && r.value.kind.Cidr? && lib.network(Cleaned(pattern)).Some? ==>
              r.value.pattern == lib.network(Cleaned(pattern)).value
    ensures r.Ok? && r.value.kind.Cidr? && lib.network(Cleaned(pattern)).None? ==>
              r.value.pattern == lib.hostNetwork(Cleaned(pattern))
  {
    var raw := Cleaned(pattern);
    if "*." <= raw then
      if ValidDomain(raw[2..]) then Ok(Entry(raw, Wildcard, allowed)) else InvalidTarget
    else if lib.network(raw).Some? then Ok(Entry(lib.network(raw).value, Cidr, allowed))
    else if lib.isAddress(raw) then Ok(Entry(lib.hostNetwork(raw), Cidr, allowed))
    else if ValidDomain(raw) then Ok(Entry(raw, Domain, allowed)) else InvalidTarget
  }

  /** A character other than the dot is in some part. */
  lemma {:induction false} PartOf(s: string, c: char) returns (part: string)
    requires c in s && c != '.'
    ensures part in Split(s) && c in part
  {
    var rest := Split(s[1..]);
    if s[0] == '.' {
      part := PartOf(s[1..], c);
      assert part in [""] + rest;
    } else if c == s[0] {
      part := PutFirst(s[0], rest)[0];
    } else {
      part := PartOf(s[1..], c);
      var k :| 0 <= k < |rest| && rest[k] == part;
      part := PutFirst(s[0], rest)[k];
    }
  }

  /** The first and the last part have the ends of the text. */
  lemma {:induction false} SplitEnds(s: string)
    ensures if s == "" || s[0] == '.' then Split(s)[0] == "" else Split(s)[0] != "" && Split(s)[0][0] == s[0]
    ensures if s == "" || s[|s| - 1] == '.' then SplitLast(s) == ""
            else SplitLast(s) != "" && SplitLast(s)[|SplitLast(s)| - 1] == s[|s| - 1]
  {
    if s != "" {
      SplitEnds(s[1..]);
    }
  }

  function SplitLast(s: string): string {
    Split(s)[|Split(s)| - 1]
  }

  predicate NewlineAtEnd(s: string) {
    s != "" && s[|s| - 1] == '\n'
  }

  lemma LabelClean(part: string)
    requires LabelMatches(part)
    ensures part != "" && LabelChar(part[0]) && (forall c | c in part :: LabelChar(c) || c == '\n')
  {
    var core := BeforeNewline(part);
    assert core[0] in core;
    forall i | 0 <= i < |part| ensures LabelChar(part[i]) || part[i] == '\n' {
      assert i < |core| ==> core[i] in core;
    }
  }

  lemma DomainChars(d: string, i: nat)
    requires ValidDomain(d) && i < |d|
    ensures LabelChar(d[i]) || d[i] == '\n' || d[i] == '.'
  {
    if d[i] != '.' {
      var part := PartOf(d, d[i]);
      LabelClean(part);
    }
  }

  /** A valid domain is clean, but for a newline that it may end in. */
  lemma DomainClean(d: string)
    requires ValidDomain(d)
    ensures d != "" && LabelChar(d[0]) && d[|d| - 1] != '.'
    ensures Lower(d) == d && (IsSpace(d[|d| - 1]) <==> NewlineAtEnd(d))
  {
    SplitEnds(d);
    assert Split(d)[0] in Split(d) && SplitLast(d) in Split(d);
    LabelClean(Split(d)[0]);
    LabelClean(SplitLast(d));
    forall i | 0 <= i < |d| ensures LowerChar(d[i]) == d[i] {
      DomainChars(d, i);
    }
    DomainChars(d, |d| - 1);
  }

  lemma StemLower(raw: string)
    requires Lower(Stem(raw)) == Stem(raw)
    ensures Lower(raw) == raw
  {
    var d := Stem(raw);
    var n := |raw| - |d|;
    forall i | 0 <= i < |raw| ensures LowerChar(raw[i]) == raw[i] {
      assert i >= n ==> Lower(d)[i - n] == raw[i];
    }
  }

  lemma StemClean(raw: string)
    requires ValidDomain(Stem(raw))
    ensures raw != "" && !IsSpace(raw[0]) && raw[|raw| - 1] != '.' && (IsSpace(raw[|raw| - 1]) <==> NewlineAtEnd(raw))
    ensures Lower(raw) == raw
  {
    var d := Stem(raw);
    DomainClean(d);
    StemLower(raw);
    assert raw[|raw| - 1] == d[|d| - 1];
  }

  lemma CleanedAgain(raw: string)
    requires ValidDomain(Stem(raw))
    ensures Cleaned(raw) == raw <==> !NewlineAtEnd(raw)
  {
    StemClean(raw);
    if NewlineAtEnd(raw) {
      NewlineStripped(raw);
      assert |Cleaned(raw)| <= |Strip(raw)|;
    } else {
      assert Stripped(raw);
    }
  }

  /** A stored domain or wildcard pattern parses to itself, unless it ends in a newline. */
  lemma ReparseIff(lib: Library, pattern: string, allowed: bool, e: Entry)
    requires Parse(lib, pattern, allowed) == Ok(e) && !e.kind.Cidr?
    ensures Parse(lib, e.pattern, allowed) == Ok(e) <==> !NewlineAtEnd(e.pattern)
  {
    CleanedAgain(e.pattern);
  }

  lemma NewlineStripped(v: string)
    requires v != "" && v[|v| - 1] == '\n'
    ensures |Strip(v)| < |v|
  {
    var t := StripStart(v);
    if |t| == |v| {
      assert StripEnd(t) == StripEnd(t[..|t| - 1]);
    }
  }

  predicate Matches(lib: Library, e: Entry, target: string) {
    match e.kind
    case Cidr => lib.isAddress(target) && lib.contains(target, e.pattern)
    case Wildcard => EndsWith(target, if e.pattern == "" then "" else e.pattern[1..])
    case Domain => target == e.pattern || EndsWith(target, "." + e.pattern)
  }

  /** What an entry means: domains cover themselves and everything below, wildcards
      only what is below, label by label. */
  ghost predicate Covers(lib: Library, e: Entry, target: string) {
    match e.kind
    case Cidr => lib.isAddress(target) && lib.contains(target, e.pattern)
    case Wildcard =>
      |e.pattern| >= 2 && IsSuffix(Split(e.pattern[2..]), Split(target)) &&
      |Split(e.pattern[2..])| < |Split(target)|
    case Domain => IsSuffix(Split(e.pattern), Split(target))
  }

  /** The string tests mean label-wise containment, for every target whatsoever. */
  lemma MatchesMeansCovers(lib: Library, e: Entry, target: string)
    requires e.kind.Wildcard? ==> "*." <= e.pattern
    ensures Matches(lib, e, target) <==> Covers(lib, e, target)
  {
    if e.kind.Wildcard? {
      assert e.pattern[1..] == "." + e.pattern[2..];
      DottedSuffix(target, e.pattern[2..]);
    } else if e.kind.Domain? {
      DottedSuffix(target, e.pattern);
      if IsSuffix(Split(e.pattern), Split(target)) && |Split(e.pattern)| == |Split(target)| {
        JoinSplit(target);
        JoinSplit(e.pattern);
      }
    }
  }

  // ------------------------------------------------------- normalization

  predicate SafeChar(c: char) {
    'a' <= c <= 'z' || '0' <= c <= '9' || c == '.' || c == ':' || c == '-' || c == '*' || c == '[' || c == ']'
  }

  predicate SafeTarget(s: string) {
    var core := BeforeNewline(s);
    1 <= |core| <= 253 && forall c | c in core :: SafeChar(c)
  }

  predicate Ascii(s: string) {
    forall c | c in s :: c < '\U{80}'
  }

  /** A cut of s: no longer, and of the same characters. */
  ghost predicate CutOf(r: string, s: string) {
    |r| <= |s| && forall c | c in r :: c in s
  }

  predicate SchemeHere(s: string) {
    |s| >= 3 && s[0] == ':' && s[1] == '/' && s[2] == '/'
  }

  predicate HasScheme(s: string)
    ensures '/' !in s ==> !HasScheme(s)
  {
    SchemeHere(s) || (s != "" && HasScheme(s[1..]))
  }

  /** The part after the first "://". */
  function AfterScheme(s: string): (r: string)
    requires HasScheme(s)
    ensures CutOf(r, s)
  {
    if SchemeHere(s) then s[3..] else AfterScheme(s[1..])
  }

  function StripScheme(s: string): (r: string)
    ensures CutOf(r, s) && ('/' !in s ==> r == s)
  {
    if HasScheme(s) then AfterScheme(s) else s
  }

  function Before(s: string, c: char): (r: string)
    ensures CutOf(r, s) && c !in r && (c !in s ==> r == s)
  {
    if s == "" || s[0] == c then "" else [s[0]] + Before(s[1..], c)
  }

  function AfterLast(s: string, c: char): (r: string)
    ensures CutOf(r, s) && c !in r && (c !in s ==> r == s)
  {
    if c !in s then s else AfterLast(s[1..], c)
  }

  function BeforeLast(s: string, c: char): (r: string)
    requires c in s
    ensures CutOf(r, s) && r + [c] <= s && c !in s[|r| + 1..]
  {
    if s[|s| - 1] == c then s[..|s| - 1] else BeforeLast(s[..|s| - 1], c)
  }

  function Colons(s: string): nat {
    if s == "" then 0 else Colons(s[..|s| - 1]) + if s[|s| - 1] == ':' then 1 else 0
  }

  predicate LooksLikeIpv6(s: string) {
    Colons(s) >= 2
  }

  predicate Bracketed(s: string) {
    |s| >= 2 && s[0] == '[' && s[|s| - 1] == ']'
  }

  function StripPort(s: string): (r: string)
    ensures CutOf(r, s)
  {
    if ':' in s && !LooksLikeIpv6(s) then BeforeLast(s, ':') else s
  }

  function StripBrackets(s: string): (r: string)
    ensures CutOf(r, s)
  {
    if Bracketed(s) then s[1..|s| - 1] else s
  }

  /** The host part of a stripped, lower-cased target. */
  function Host(s: string): (r: string)
    ensures CutOf(r, s)
  {
    StripBrackets(StripPort(Authority(s)))
  }

  /** What is left once scheme, path and user info are cut away. */
  function Authority(s: string): (r: string)
    ensures CutOf(r, s)
  {
    AfterLast(Before(StripScheme(s), '/'), '@')
  }

  /** IDNA encoding where needed, then the character check. */
  function Checked(lib: Library, host: string): Outcome<string> {
    if Ascii(host) || '*' in host || LooksLikeIpv6(host) then SafeForm(host)
    else if lib.idna(host).Some? then SafeForm(Lower(lib.idna(host).value))
    else InvalidTarget
  }

  function SafeForm(host: string): Outcome<string> {
    if SafeTarget(host) then Ok(RStripDots(host)) else InvalidTarget
  }

  function Normalize(lib: Library, raw: string): Outcome<string> {
    Checked(lib, Host(Lower(Strip(raw))))
  }

  /** The stripping steps of the normalization. */
  method CutHost(text: string) returns (value: string)
    ensures value == Host(text)
  {
    value := text;
    if HasScheme(value) {
      value := AfterScheme(value);
    }
    assert value == StripScheme(text);
    value := Before(value, '/');
    value := AfterLast(value, '@');
    assert value == Authority(text);
    if ':' in value && !LooksLikeIpv6(value) {
      value := BeforeLast(value, ':');
    }
    assert value == StripPort(Authority(text));
    if Bracketed(value) {
      value := value[1..|value| - 1];
    }
  }

  method NormalizeTarget(lib: Library, raw: string) returns (r: Outcome<string>)
    ensures r == Normalize(lib, raw)
  {
    var value := CutHost(Lower(Strip(raw)));
    if !Ascii(value) && '*' !in value && !LooksLikeIpv6(value) {
      var encoded := lib.idna(value);
      if encoded.None? {
        return InvalidTarget;
      }
      value := Lower(encoded.value);
    }
    if !SafeTarget(value) {
      return InvalidTarget;
    }
    return Ok(RStripDots(value));
  }

  // ------------------------------------------------------ normal forms

  /** What a normal form looks like: safe characters but for a possible final newline,
      no final dot, never exactly one colon. */
  ghost predicate NormalShape(v: string) {
    && (forall c | c in BeforeNewline(v) :: SafeChar(c)) && |BeforeNewline(v)| <= 253
    && (v == "" || v[|v| - 1] != '.')
    && Colons(v) != 1
  }

  lemma {:induction false} ColonsIn(s: string)
    ensures Colons(s) > 0 <==> ':' in s
  {
    if s != "" {
      ColonsIn(s[..|s| - 1]);
    }
  }

  lemma {:induction false} ColonsOfPrefix(s: string, n: nat)
    requires n <= |s| && ':' !in s[n..]
    ensures Colons(s[..n]) == Colons(s)
  {
    if n < |s| {
      var init := s[..|s| - 1];
      assert s[|s| - 1] == s[n..][|s| - 1 - n];
      assert forall c | c in init[n..] :: c in s[n..];
      assert init[..n] == s[..n];
      ColonsOfPrefix(init, n);
    } else {
      assert s[..n] == s;
    }
  }

  lemma {:induction false} ColonsOfTail(s: string)
    requires s != ""
    ensures Colons(s[1..]) == Colons(s) - if s[0] == ':' then 1 else 0
  {
    if |s| > 1 {
      var init := s[..|s| - 1];
      ColonsOfTail(init);
      assert s[1..][..|s| - 2] == init[1..];
    }
  }

  /** Stripping a port never leaves exactly one colon. */
  lemma PortColons(s: string)
    ensures Colons(StripPort(s)) != 1
  {
    ColonsIn(s);
    if ':' in s && Colons(s) < 2 {
      var r := BeforeLast(s, ':');
      PrefixColons(s, r);
    }
  }

  lemma PrefixColons(s: string, r: string)
    requires r + ":" <= s && ':' !in s[|r| + 1..]
    ensures Colons(r) == Colons(s) - 1
  {
    var t := s[..|r| + 1];
    assert t == r + ":" && t[..|t| - 1] == r;
    ColonsOfPrefix(s, |t|);
  }

  lemma BracketColons(s: string)
    ensures Colons(StripBrackets(s)) == Colons(s)
  {
    if Bracketed(s) {
      var t := s[..|s| - 1];
      assert Colons(s) == Colons(t);
      ColonsOfTail(t);
      assert t[1..] == s[1..|s| - 1];
    }
  }

  lemma {:induction false} DotsColons(s: string)
    ensures Colons(RStripDots(s)) == Colons(s)
  {
    if s != "" && s[|s| - 1] == '.' {
      DotsColons(s[..|s| - 1]);
    }
  }

  lemma CutAscii(s: string, r: string)
    requires Ascii(s) && CutOf(r, s)
    ensures Ascii(r)
  {
  }

  lemma CleanAscii(raw: string)
    requires Ascii(raw)
    ensures Ascii(Lower(Strip(raw)))
  {
    StripCuts(raw);
    CutAscii(raw, Strip(raw));
    LowerAscii(Strip(raw));
  }

  lemma LowerAscii(text: string)
    requires Ascii(text)
    ensures Ascii(Lower(text))
  {
    var low := Lower(text);
    forall i | 0 <= i < |low| ensures low[i] < '\U{80}' {
      assert text[i] in text;
    }
  }

  lemma StripCuts(raw: string)
    ensures CutOf(Strip(raw), raw)
  {
  }

  lemma HostColons(text: string)
    ensures Colons(Host(text)) != 1
  {
    PortColons(Authority(text));
    BracketColons(StripPort(Authority(text)));
  }

  lemma SafeStripDots(s: string)
    requires SafeTarget(s)
    ensures var v := RStripDots(s); (forall c | c in BeforeNewline(v) :: SafeChar(c)) && |BeforeNewline(v)| <= 253
  {
    var v := RStripDots(s);
    if s[|s| - 1] == '\n' {
      assert v == s;
    } else {
      assert BeforeNewline(s) == s && BeforeNewline(v) <= s;
    }
  }

  lemma NormalFormShape(lib: Library, raw: string)
    requires Ascii(raw) && Normalize(lib, raw).Ok?
    ensures NormalShape(Normalize(lib, raw).value)
  {
    var text := Lower(Strip(raw));
    CleanAscii(raw);
    HostColons(text);
    SafeFormShape(lib, text, Host(text));
  }

  lemma SafeFormShape(lib: Library, text: string, host: string)
    requires Ascii(text) && CutOf(host, text) && Colons(host) != 1 && Checked(lib, host).Ok?
    ensures NormalShape(Checked(lib, host).value)
  {
    CutAscii(text, host);
    DotsColons(host);
    SafeStripDots(host);
  }

  lemma SafeStripped(v: string)
    requires forall c | c in v :: SafeChar(c)
    ensures Stripped(v) && Lower(v) == v && Ascii(v) && '/' !in v && '@' !in v
  {
    assert v != "" ==> v[0] in v && v[|v| - 1] in v;
    forall i | 0 <= i < |v| ensures LowerChar(v[i]) == v[i] {
      assert v[i] in v;
    }
  }

  lemma PlainHost(v: string)
    requires '/' !in v && '@' !in v && Colons(v) != 1
    ensures Host(v) == StripBrackets(v)
  {
    ColonsIn(v);
  }

  lemma PlainNormal(lib: Library, v: string)
    requires NormalShape(v) && (v == "" || v[|v| - 1] != '\n')
    ensures Normalize(lib, v) == Ok(v) <==> v != "" && !Bracketed(v)
  {
    SafeStripped(v);
    PlainHost(v);
    PlainChecked(lib, v, StripBrackets(v));
  }

  lemma PlainChecked(lib: Library, v: string, host: string)
    requires NormalShape(v) && (v == "" || v[|v| - 1] != '\n') && Ascii(v)
    requires host == StripBrackets(v)
    ensures Checked(lib, host) == Ok(v) <==> v != "" && !Bracketed(v)
  {
    CutAscii(v, host);
    if Bracketed(v) {
      assert |host| < |v|;
    }
  }

  lemma NormalizeShrinks(lib: Library, v: string)
    requires Ascii(v) && Normalize(lib, v).Ok?
    ensures |Normalize(lib, v).value| <= |Strip(v)|
  {
    var text := Lower(Strip(v));
    CleanAscii(v);
    CutAscii(text, Host(text));
    CheckedShrinks(lib, Host(text));
  }

  lemma CheckedShrinks(lib: Library, host: string)
    requires Ascii(host) && Checked(lib, host).Ok?
    ensures |Checked(lib, host).value| <= |host|
  {
  }

  lemma ShapeAscii(v: string)
    requires NormalShape(v)
    ensures Ascii(v)
  {
    var core := BeforeNewline(v);
    forall c | c in v ensures c < '\U{80}' {
      var i :| 0 <= i < |v| && v[i] == c;
      if i < |core| {
        assert core[i] in core && core[i] == c;
      }
    }
  }

  /** A normal form is a fixpoint of the normalization iff it is not empty, not wholly
      bracketed, and does not end in a newline. */
  lemma FixpointIff(lib: Library, v: string)
    requires NormalShape(v)
    ensures Normalize(lib, v) == Ok(v) <==> v != "" && !Bracketed(v) && v[|v| - 1] != '\n'
  {
    if v == "" || v[|v| - 1] != '\n' {
      PlainNormal(lib, v);
    } else if Normalize(lib, v).Ok? {
      ShapeAscii(v);
      NormalizeShrinks(lib, v);
      NewlineStripped(v);
    }
  }

  // What the exceptions mean for the input: they show in the host that the cutting
  // steps leave, before any check.

  ghost function CutHostOf(raw: string): string {
    Host(Lower(Strip(raw)))
  }

  lemma AsciiNormal(lib: Library, raw: string)
    requires Ascii(raw)
    ensures Normalize(lib, raw) == SafeForm(CutHostOf(raw))
  {
    CleanAscii(raw);
    CutAscii(Lower(Strip(raw)), CutHostOf(raw));
  }

  lemma NewlineOrSafe(host: string)
    requires SafeTarget(host)
    ensures var v := RStripDots(host);
            && (host[|host| - 1] == '\n' ==> v == host)
            && (host[|host| - 1] != '\n' ==> forall c | c in v :: SafeChar(c))
  {
    if host[|host| - 1] != '\n' {
      assert BeforeNewline(host) == host;
    }
  }

  lemma SafeFormIff(host: string)
    requires SafeForm(host).Ok?
    ensures (forall c | c in SafeForm(host).value :: SafeChar(c)) <==> !EndsWith(host, "\n")
  {
    NewlineOrSafe(host);
    EndsInNewline(host);
    if host[|host| - 1] == '\n' {
      assert host[|host| - 1] in RStripDots(host) && !SafeChar('\n');
    }
  }

  /** "Anything but safe characters is rejected" holds exactly for inputs whose cut host
      does not end in a newline: one right before the path, a port or a bracket. */
  lemma SafeIffNoNewline(lib: Library, raw: string)
    requires Ascii(raw) && Normalize(lib, raw).Ok?
    ensures (forall c | c in Normalize(lib, raw).value :: SafeChar(c)) <==> !EndsWith(CutHostOf(raw), "\n")
  {
    AsciiNormal(lib, raw);
    SafeFormIff(CutHostOf(raw));
  }

  lemma EndsInNewline(s: string)
    ensures EndsWith(s, "\n") <==> s != "" && s[|s| - 1] == '\n'
  {
    assert s != "" ==> s[|s| - 1..] == [s[|s| - 1]];
  }

  /** A host that is plain: not just dots, no newline at its end, and no bracket at the
      front that is closed at the end, final dots aside. */
  ghost predicate PlainCut(host: string) {
    && (exists c :: c in host && c != '.')
    && !EndsWith(host, "\n")
    && !(host != "" && host[0] == '[' && exists n :: ClosesBracket(host, n))
  }

  /** A bracket at position n, followed by dots only. */
  ghost predicate ClosesBracket(host: string, n: int) {
    0 < n < |host| && host[n] == ']' && forall i | n < i < |host| :: host[i] == '.'
  }

  lemma {:induction false} StrippedDots(s: string)
    ensures forall i | |RStripDots(s)| <= i < |s| :: s[i] == '.'
  {
    if s != "" && s[|s| - 1] == '.' {
      StrippedDots(s[..|s| - 1]);
    }
  }

  lemma PlainCutMeans(host: string)
    requires SafeTarget(host)
    ensures PlainCut(host) <==>
            var v := RStripDots(host); v != "" && !Bracketed(v) && v[|v| - 1] != '\n'
  {
    var v := RStripDots(host);
    StrippedDots(host);
    EndsInNewline(host);
    NewlineOrSafe(host);
    if v == "" {
      forall c | c in host ensures c == '.' {
        var i :| 0 <= i < |host| && host[i] == c;
      }
    } else {
      var last := |v| - 1;
      assert host[last] in host && host[last] == v[last] && v[last] in v && host[last] != '.';
      ClosingIsLast(host, last);
      assert Bracketed(v) <==> host[0] == '[' && ClosesBracket(host, last);
    }
  }

  lemma ClosingIsLast(host: string, last: nat)
    requires last < |host| && host[last] != '.' && forall i | last < i < |host| :: host[i] == '.'
    ensures forall n :: ClosesBracket(host, n) ==> n == last
    ensures ClosesBracket(host, last) <==> last > 0 && host[last] == ']'
  {
  }

  lemma FixpointOfCut(lib: Library, host: string, v: string)
    requires SafeTarget(host) && v == RStripDots(host) && NormalShape(v)
    ensures Normalize(lib, v) == Ok(v) <==> PlainCut(host)
  {
    FixpointIff(lib, v);
    PlainCutMeans(host);
  }

  /** Normalizing an ASCII input twice is the same as once iff its cut host is plain. */
  lemma InputFixpointIff(lib: Library, raw: string, v: string)
    requires Ascii(raw) && Normalize(lib, raw) == Ok(v)
    ensures Normalize(lib, v) == Ok(v) <==> PlainCut(CutHostOf(raw))
  {
    AsciiNormal(lib, raw);
    NormalFormShape(lib, raw);
    FixpointOfCut(lib, CutHostOf(raw), v);
  }

  // --------------------------------------------------------------- policy

  const HARD_BLOCKED_HOSTS: set<string> :=
    {"metadata.google.internal", "169.254.169.254", "localhost", "ip6-localhost"}

  datatype Reason = HardBlockedHost | HardBlockedNet | ExplicitlyOut(pattern: string) | InScope(pattern: string) | NotCovered

  datatype Decision = Decision(allowed: bool, reason: Reason)

  function TrimStars(s: string): string {
    if s != "" && s[0] == '*' then TrimStars(s[1..])
    else if s != "" && s[|s| - 1] == '*' then TrimStars(s[..|s| - 1])
    else s
  }

  /** r stands at place i of s, among stars. */
  ghost predicate AmongStars(s: string, r: string, i: nat) {
    && i + |r| <= |s| && r == s[i..i + |r|]
    && forall k | 0 <= k < |s| && !(i <= k < i + |r|) :: s[k] == '*'
  }

  lemma StarBefore(s: string, r: string, i: nat)
    requires s != "" && s[0] == '*' && AmongStars(s[1..], r, i)
    ensures AmongStars(s, r, i + 1)
  {
    forall k | 0 <= k < |s| && !(i + 1 <= k < i + 1 + |r|) ensures s[k] == '*' {
      assert k > 0 ==> s[1..][k - 1] == '*';
    }
  }

  lemma StarAfter(s: string, r: string, i: nat)
    requires s != "" && s[|s| - 1] == '*' && AmongStars(s[..|s| - 1], r, i)
    ensures AmongStars(s, r, i)
  {
    forall k | 0 <= k < |s| && !(i <= k < i + |r|) ensures s[k] == '*' {
      assert k < |s| - 1 ==> s[..|s| - 1][k] == '*';
    }
  }

  /** `s.strip("*")`: what the stars leave. */
  lemma {:induction false} StarsTrimmed(s: string) returns (i: nat)
    ensures AmongStars(s, TrimStars(s), i)
    ensures TrimStars(s) != "" ==> TrimStars(s)[0] != '*' && TrimStars(s)[|TrimStars(s)| - 1] != '*'
  {
    i := 0;
    if s != "" && s[0] == '*' {
      i := StarsTrimmed(s[1..]);
      StarBefore(s, TrimStars(s), i);
      i := i + 1;
    } else if s != "" && s[|s| - 1] == '*' {
      i := StarsTrimmed(s[..|s| - 1]);
      StarAfter(s, TrimStars(s), i);
    }
  }

  /** The first entry of the given polarity that matches. */
  function FirstMatch(lib: Library, entries: seq<Entry>, target: string, allowed: bool): (r: Option<Entry>)
    ensures r.Some? ==> r.value in entries && r.value.allowed == allowed && Matches(lib, r.value, target)
    ensures r.None? ==> forall e | e in entries && e.allowed == allowed :: !Matches(lib, e, target)
  {
    if entries == [] then None
    else if entries[0].allowed == allowed && Matches(lib, entries[0], target) then Some(entries[0])
    else FirstMatch(lib, entries[1..], target, allowed)
  }

  /** The decision on a normalized target: hard blocks, then denies, then allows. */
  function Judge(lib: Library, target: string, entries: seq<Entry>): Outcome<Decision> {
    if target in HARD_BLOCKED_HOSTS then Ok(Decision(false, HardBlockedHost))
    else if lib.isAddress(TrimStars(target)) && !lib.isAddress(target) then AddressError
    else if lib.isAddress(target) && lib.isAddress(TrimStars(target)) && lib.hardBlocked(target)
    then Ok(Decision(false, HardBlockedNet))
    else
      var deny, allow := FirstMatch(lib, entries, target, false), FirstMatch(lib, entries, target, true);
      if deny.Some? then Ok(Decision(false, ExplicitlyOut(deny.value.pattern)))
      else if allow.Some? then Ok(Decision(true, InScope(allow.value.pattern)))
      else Ok(Decision(false, NotCovered))
  }

  function Evaluate(lib: Library, raw: string, entries: seq<Entry>): Outcome<Decision> {
    match Normalize(lib, raw)
    case Ok(target) => Judge(lib, target, entries)
    case InvalidTarget => InvalidTarget
    case AddressError => AddressError
  }

  predicate Permits(lib: Library, raw: string, entries: seq<Entry>) {
    Evaluate(lib, raw, entries).Ok? && Evaluate(lib, raw, entries).value.allowed
  }

  ghost predicate HardBlocked(lib: Library, target: string) {
    target in HARD_BLOCKED_HOSTS || (lib.isAddress(target) && lib.isAddress(TrimStars(target)) && lib.hardBlocked(target))
  }

  /** Entries as the parser makes them. */
  ghost predicate Parsed(entries: seq<Entry>) {
    forall e | e in entries && e.kind.Wildcard? :: "*." <= e.pattern
  }

  ghost predicate Covered(lib: Library, entries: seq<Entry>, target: string, allowed: bool) {
    exists e :: e in entries && e.allowed == allowed && Covers(lib, e, target)
  }

  /** Does the address test on the trimmed target promise an address that the target
      itself is not? Then the decision ends in an error. */
  ghost predicate Misread(lib: Library, target: string) {
    target !in HARD_BLOCKED_HOSTS && lib.isAddress(TrimStars(target)) && !lib.isAddress(target)
  }

  ghost predicate Listed(lib: Library, entries: seq<Entry>, target: string, allowed: bool) {
    exists e :: e in entries && e.allowed == allowed && Matches(lib, e, target)
  }

  lemma JudgeAllows(lib: Library, target: string, entries: seq<Entry>)
    ensures Judge(lib, target, entries).Ok? && Judge(lib, target, entries).value.allowed <==>
            !HardBlocked(lib, target) && !Misread(lib, target) &&
            !Listed(lib, entries, target, false) && Listed(lib, entries, target, true)
  {
  }

  lemma ListedIsCovered(lib: Library, entries: seq<Entry>, target: string, allowed: bool)
    requires Parsed(entries)
    ensures Listed(lib, entries, target, allowed) <==> Covered(lib, entries, target, allowed)
  {
    forall e | e in entries ensures Matches(lib, e, target) <==> Covers(lib, e, target) {
      MatchesMeansCovers(lib, e, target);
    }
  }

  /** A target is permitted iff it is not hard-blocked, its decision does not end in an
      error, no deny entry covers it and some allow entry does. */
  lemma PermitsIff(lib: Library, raw: string, target: string, entries: seq<Entry>)
    requires Normalize(lib, raw) == Ok(target) && Parsed(entries)
    ensures Permits(lib, raw, entries) <==>
            !HardBlocked(lib, target) && !Misread(lib, target) &&
            !Covered(lib, entries, target, false) && Covered(lib, entries, target, true)
  {
    JudgeAllows(lib, target, entries);
    ListedIsCovered(lib, entries, target, false);
    ListedIsCovered(lib, entries, target, true);
  }

  ghost predicate CoveredBy(lib: Library, entries: seq<Entry>, target: string, allowed: bool, pattern: string) {
    exists e :: e in entries && e.allowed == allowed && e.pattern == pattern && Covers(lib, e, target)
  }

  /** What the reason of a decision says about the entries. */
  lemma ReasonMeans(lib: Library, target: string, entries: seq<Entry>)
    requires Parsed(entries) && Judge(lib, target, entries).Ok?
    ensures var d := Judge(lib, target, entries).value;
            && (d.allowed <==> d.reason.InScope?)
            && (d.reason.HardBlockedHost? || d.reason.HardBlockedNet? <==> HardBlocked(lib, target))
            && (d.reason.ExplicitlyOut? <==> !HardBlocked(lib, target) && Covered(lib, entries, target, false))
            && (d.reason.ExplicitlyOut? ==> CoveredBy(lib, entries, target, false, d.reason.pattern))
            && (d.reason.InScope? ==> CoveredBy(lib, entries, target, true, d.reason.pattern))
            && (d.reason.NotCovered? ==> !Covered(lib, entries, target, true))
  {
    ListedIsCovered(lib, entries, target, false);
    ListedIsCovered(lib, entries, target, true);
    var deny, allow := FirstMatch(lib, entries, target, false), FirstMatch(lib, entries, target, true);
    if deny.Some? {
      MatchesMeansCovers(lib, deny.value, target);
    }
    if allow.Some? {
      MatchesMeansCovers(lib, allow.value, target);
    }
  }

  lemma ListedMonotone(lib: Library, few: seq<Entry>, many: seq<Entry>, target: string, allowed: bool)
    requires forall e | e in few && e.allowed == allowed :: e in many
    ensures Listed(lib, few, target, allowed) ==> Listed(lib, many, target, allowed)
  {
    if Listed(lib, few, target, allowed) {
      var e :| e in few && e.allowed == allowed && Matches(lib, e, target);
      assert e in many;
    }
  }

  /** Dropping denies or adding allows never takes a permission away. */
  lemma PolicyMonotone(lib: Library, raw: string, entries: seq<Entry>, others: seq<Entry>)
    requires forall e | e in others && !e.allowed :: e in entries
    requires forall e | e in entries && e.allowed :: e in others
    ensures Permits(lib, raw, entries) ==> Permits(lib, raw, others)
  {
    if Permits(lib, raw, entries) {
      var target := Normalize(lib, raw).value;
      JudgeAllows(lib, target, entries);
      JudgeAllows(lib, target, others);
      ListedMonotone(lib, others, entries, target, false);
      ListedMonotone(lib, entries, others, target, true);
    }
  }

  /** The order of the entries does not matter. */
  lemma OrderIrrelevant(lib: Library, raw: string, entries: seq<Entry>, others: seq<Entry>)
    requires multiset(entries) == multiset(others)
    ensures Permits(lib, raw, entries) <==> Permits(lib, raw, others)
  {
    forall e ensures e in entries <==> e in others {
      assert e in entries <==> e in multiset(entries);
      assert e in others <==> e in multiset(others);
    }
    PolicyMonotone(lib, raw, entries, others);
    PolicyMonotone(lib, raw, others, entries);
  }

  // ------------------------------------------------------ rows and gates

  type Rows = seq<(string, bool)>

  function ParserOf(lib: Library): ((string, bool)) -> Outcome<Entry> {
    (row: (string, bool)) => Parse(lib, row.0, row.1)
  }

  ghost function Mapped<A, B>(f: A -> B, s: seq<A>): seq<B> {
    seq(|s|, i requires 0 <= i < |s| => f(s[i]))
  }

  lemma MappedAppend<A, B>(f: A -> B, a: seq<A>, b: seq<A>)
    ensures Mapped(f, a + b) == Mapped(f, a) + Mapped(f, b)
  {
  }

  ghost function Oks<T>(outcomes: seq<Outcome<T>>): seq<T> {
    if outcomes == [] then []
    else
      var last := outcomes[|outcomes| - 1];
      Oks(outcomes[..|outcomes| - 1]) + if last.Ok? then [last.value] else []
  }

  ghost predicate PicksOf<T(!new)>(outcomes: seq<Outcome<T>>, values: seq<T>, picks: seq<nat>) {
    && Places(picks, |outcomes|) && |picks| == |values|
    && (forall k | 0 <= k < |picks| :: outcomes[picks[k]] == Ok(values[k]))
    && forall i: nat | i < |outcomes| && outcomes[i].Ok? :: i in picks
  }

  lemma PicksNext<T(!new)>(outcomes: seq<Outcome<T>>, values: seq<T>, picks: seq<nat>, x: Outcome<T>)
    requires PicksOf(outcomes, values, picks)
    ensures !x.Ok? ==> PicksOf(outcomes + [x], values, picks)
    ensures x.Ok? ==> PicksOf(outcomes + [x], values + [x.value], picks + [|outcomes|])
  {
    PlacesNext(picks, |outcomes|);
  }

  /** The good outcomes, all of them and in their order. */
  lemma {:induction false} OksPicks<T(!new)>(outcomes: seq<Outcome<T>>) returns (picks: seq<nat>)
    ensures PicksOf(outcomes, Oks(outcomes), picks)
  {
    picks := [];
    if outcomes != [] {
      var init, x := outcomes[..|outcomes| - 1], outcomes[|outcomes| - 1];
      picks := OksPicks(init);
      PicksNext(init, Oks(init), picks, x);
      assert init + [x] == outcomes;
      if x.Ok? {
        picks := picks + [|init|];
      } else {
        assert Oks(outcomes) == Oks(init);
      }
    }
  }

  /** Exactly the well-formed rows are loaded, each as it parses, in their order. */
  ghost predicate LoadedFrom(lib: Library, rows: Rows, entries: seq<Entry>, picks: seq<nat>) {
    && Places(picks, |rows|) && |picks| == |entries|
    && (forall k | 0 <= k < |picks| :: Parse(lib, rows[picks[k]].0, rows[picks[k]].1) == Ok(entries[k]))
    && forall i: nat | i < |rows| && i !in picks :: !Parse(lib, rows[i].0, rows[i].1).Ok?
  }

  lemma LoadedPicks(lib: Library, rows: Rows) returns (picks: seq<nat>)
    ensures LoadedFrom(lib, rows, Loaded(lib, rows), picks)
  {
    picks := OksPicks(Mapped(ParserOf(lib), rows));
    forall i: nat | i < |rows| && i !in picks ensures !Parse(lib, rows[i].0, rows[i].1).Ok? {
      assert Mapped(ParserOf(lib), rows)[i] == Parse(lib, rows[i].0, rows[i].1);
    }
  }

  ghost function Loaded(lib: Library, rows: Rows): seq<Entry> {
    Oks(Mapped(ParserOf(lib), rows))
  }

  lemma LoadedParsed(lib: Library, rows: Rows, entries: seq<Entry>, picks: seq<nat>)
    requires LoadedFrom(lib, rows, entries, picks)
    ensures Parsed(entries)
  {
    forall e | e in entries && e.kind.Wildcard? ensures "*." <= e.pattern {
      var k :| 0 <= k < |entries| && entries[k] == e;
      assert Parse(lib, rows[picks[k]].0, rows[picks[k]].1) == Ok(e);
    }
  }

  /** Malformed patterns are skipped. */
  method LoadEntries(lib: Library, rows: Rows) returns (entries: seq<Entry>)
    ensures entries == Loaded(lib, rows) && Parsed(entries)
    ensures exists picks :: LoadedFrom(lib, rows, entries, picks)
  {
    entries := KeepOks(ParserOf(lib), rows);
    ghost var picks := LoadedPicks(lib, rows);
    LoadedParsed(lib, rows, entries, picks);
  }

  method KeepOks<A, B>(f: A -> Outcome<B>, s: seq<A>) returns (kept: seq<B>)
    ensures kept == Oks(Mapped(f, s))
  {
    kept := [];
    ghost var outcomes := Mapped(f, s);
    for i := 0 to |s|
      invariant kept == Oks(outcomes[..i])
    {
      assert outcomes[..i + 1][..i] == outcomes[..i];
      var one := f(s[i]);
      if one.Ok? {
        kept := kept + [one.value];
      }
    }
    assert outcomes[..|s|] == outcomes;
  }

  lemma {:induction false} OksAppend<T>(a: seq<Outcome<T>>, b: seq<Outcome<T>>)
    ensures Oks(a + b) == Oks(a) + Oks(b)
  {
    if b == [] {
      assert a + b == a;
    } else {
      assert (a + b)[..|a + b| - 1] == a + b[..|b| - 1];
      OksAppend(a, b[..|b| - 1]);
    }
  }

  /** A malformed row never widens the scope: it might as well not be there. */
  lemma MalformedRowInert(lib: Library, rows: Rows, row: (string, bool), more: Rows)
    requires !Parse(lib, row.0, row.1).Ok?
    ensures Loaded(lib, rows + [row] + more) == Loaded(lib, rows + more)
  {
    var parse := ParserOf(lib);
    MappedAppend(parse, rows + [row], more);
    MappedAppend(parse, rows, [row]);
    MappedAppend(parse, rows, more);
    assert Mapped(parse, [row])[0] == Parse(lib, row.0, row.1);
    BadOutcome(Mapped(parse, rows), Mapped(parse, [row]), Mapped(parse, more));
  }

  lemma BadOutcome<T>(a: seq<Outcome<T>>, bad: seq<Outcome<T>>, b: seq<Outcome<T>>)
    requires |bad| == 1 && !bad[0].Ok?
    ensures Oks(a + bad + b) == Oks(a + b)
  {
    OksAppend(a + bad, b);
    OksAppend(a, bad);
    OksAppend(a, b);
    assert bad[..0] == [] && Oks(bad) == [];
  }

  /** The gates agree. For ASCII input whose normal form is non-empty, not wholly
      bracketed and without a final newline, the decision on the raw target, the
      master's on the normalized one and the worker's on the forwarded one are one. */
  lemma GatesAgree(lib: Library, raw: string, target: string, entries: seq<Entry>)
    requires Ascii(raw) && Normalize(lib, raw) == Ok(target)
    requires target != "" && !Bracketed(target) && target[|target| - 1] != '\n'
    ensures Normalize(lib, target) == Ok(target)
    ensures Evaluate(lib, raw, entries) == Evaluate(lib, target, entries) == Judge(lib, target, entries)
  {
    NormalFormShape(lib, raw);
    FixpointIff(lib, target);
  }

  /** The same with the condition on the input. */
  lemma GatesAgreeOnPlainInput(lib: Library, raw: string, target: string, entries: seq<Entry>)
    requires Ascii(raw) && Normalize(lib, raw) == Ok(target) && PlainCut(CutHostOf(raw))
    ensures Evaluate(lib, raw, entries) == Evaluate(lib, target, entries) == Judge(lib, target, entries)
  {
    InputFixpointIff(lib, raw, target);
  }
}
