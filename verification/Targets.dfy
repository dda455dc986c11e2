/** Which part of a target is its host: the laws of the normalization over the text of a
    target, put together from its parts. */
module Targets {
  import opened Prelude
  import opened Text
  import opened Scope

  /** `t in s` on texts. */
  ghost predicate Has(s: string, t: string) {
    exists i :: 0 <= i <= |s| && t <= s[i..]
  }

  /** A target as it is written. */
  ghost function Written(scheme: Option<string>, user: Option<string>, host: string, port: Option<string>,
                         path: Option<string>): string
  {
    (if scheme.Some? then scheme.value + "://" else "") + Address(user, host, port) +
    (if path.Some? then "/" + path.value else "")
  }

  ghost function Address(user: Option<string>, host: string, port: Option<string>): string {
    (if user.Some? then user.value + "@" else "") + host + (if port.Some? then ":" + port.value else "")
  }

  // -------------------------------------------------------- the single cuts

  lemma HereIsHas(s: string)
    requires SchemeHere(s)
    ensures Has(s, "://")
  {
    assert s[0..] == s && s[..3] == "://" && "://" <= s[0..];
  }

  lemma {:induction false} SchemeCut(scheme: string, rest: string)
    requires !Has(scheme, "://")
    ensures HasScheme(scheme + "://" + rest) && AfterScheme(scheme + "://" + rest) == rest
  {
    var s := scheme + "://" + rest;
    if scheme == "" {
      assert SchemeHere(s) && s[3..] == rest;
    } else {
      if |scheme| >= 3 && SchemeHere(s) {
        assert SchemeHere(scheme);
        HereIsHas(scheme);
      }
      forall i | 0 <= i <= |scheme[1..]| ensures !("://" <= scheme[1..][i..]) {
        assert scheme[1..][i..] == scheme[i + 1..];
      }
      SchemeCut(scheme[1..], rest);
      assert s[1..] == scheme[1..] + "://" + rest;
    }
  }

  lemma {:induction false} NoScheme(s: string)
    requires !Has(s, "://")
    ensures !HasScheme(s)
  {
    if s != "" {
      forall i | 0 <= i <= |s[1..]| ensures !("://" <= s[1..][i..]) {
        assert s[1..][i..] == s[i + 1..];
      }
      NoScheme(s[1..]);
      if SchemeHere(s) {
        HereIsHas(s);
      }
    }
  }

  lemma {:induction false} BeforeAt(a: string, c: char, b: string)
    requires c !in a
    ensures Before(a + [c] + b, c) == a
  {
    var s := a + [c] + b;
    if a != "" {
      assert s[1..] == a[1..] + [c] + b;
      BeforeAt(a[1..], c, b);
    }
  }

  lemma {:induction false} AfterLastAt(a: string, c: char, b: string)
    requires c !in b
    ensures AfterLast(a + [c] + b, c) == b
  {
    var s := a + [c] + b;
    assert s[|a|] == c;
    if a == "" {
      assert s[1..] == b;
    } else {
      assert s[1..] == a[1..] + [c] + b;
      AfterLastAt(a[1..], c, b);
    }
  }

  lemma {:induction false} BeforeLastAt(a: string, c: char, b: string)
    requires c !in b
    ensures c in a + [c] + b && BeforeLast(a + [c] + b, c) == a
  {
    var s := a + [c] + b;
    assert s[|a|] == c;
    if b == "" {
      assert s[..|s| - 1] == a;
    } else {
      assert s[..|s| - 1] == a + [c] + b[..|b| - 1];
      BeforeLastAt(a, c, b[..|b| - 1]);
    }
  }

  lemma OneColon(host: string, port: string)
    requires ':' !in host && ':' !in port
    ensures Colons(host + ":" + port) == 1
  {
    var s := host + ":" + port;
    ColonsIn(host);
    assert s[..|host| + 1] == host + ":" && (host + ":")[..|host|] == host;
    assert s[|host| + 1..] == port;
    ColonsOfPrefix(s, |host| + 1);
  }

  lemma PortCut(host: string, port: string)
    requires ':' !in host && ':' !in port
    ensures StripPort(host + ":" + port) == host && StripPort(host) == host
  {
    OneColon(host, port);
    BeforeLastAt(host, ':', port);
  }

  // ------------------------------------------------------------ all of them

  ghost predicate Without(s: string, chars: set<char>) {
    forall c | c in s :: c !in chars
  }

  /** The parts of a target may not hold what separates them. Without a scheme there is
      no "://" anywhere, or what stands before it would be taken for one. */
  ghost predicate WellParted(scheme: Option<string>, user: Option<string>, host: string, port: Option<string>,
                             path: Option<string>)
  {
    && (if scheme.Some? then !Has(scheme.value, "://") else !Has(Written(scheme, user, host, port, path), "://"))
    && (user.Some? ==> '/' !in user.value) && Without(host, {'/', '@'})
    && (port.Some? ==> ':' !in host && Without(port.value, {'/', '@', ':'}))
  }

  lemma SchemeGone(scheme: Option<string>, user: Option<string>, host: string, port: Option<string>, path: Option<string>)
    requires WellParted(scheme, user, host, port, path)
    ensures StripScheme(Written(scheme, user, host, port, path)) == Written(None, user, host, port, path)
  {
    var text, rest := Written(scheme, user, host, port, path), Written(None, user, host, port, path);
    if scheme.Some? {
      assert text == scheme.value + "://" + rest;
      SchemeCut(scheme.value, rest);
    } else {
      NoScheme(text);
    }
  }

  lemma NoSlash(user: Option<string>, host: string, port: Option<string>)
    requires (user.Some? ==> '/' !in user.value) && '/' !in host && (port.Some? ==> '/' !in port.value)
    ensures '/' !in Address(user, host, port)
  {
    var u := if user.Some? then user.value + "@" else "";
    var p := if port.Some? then ":" + port.value else "";
    assert '/' !in u && '/' !in p;
    assert Address(user, host, port) == u + host + p;
  }

  lemma CutAtSlash(address: string, path: Option<string>)
    requires '/' !in address
    ensures Before(address + (if path.Some? then "/" + path.value else ""), '/') == address
  {
    if path.Some? {
      assert address + ("/" + path.value) == address + ['/'] + path.value;
      BeforeAt(address, '/', path.value);
    } else {
      assert address + "" == address;
    }
  }

  lemma NoSchemeWritten(user: Option<string>, host: string, port: Option<string>, path: Option<string>)
    ensures Written(None, user, host, port, path) ==
            Address(user, host, port) + if path.Some? then "/" + path.value else ""
  {
    assert "" + Address(user, host, port) == Address(user, host, port);
  }

  lemma PathGone(user: Option<string>, host: string, port: Option<string>, path: Option<string>)
    requires (user.Some? ==> '/' !in user.value) && '/' !in host && (port.Some? ==> '/' !in port.value)
    ensures Before(Written(None, user, host, port, path), '/') == Address(user, host, port)
  {
    NoSlash(user, host, port);
    NoSchemeWritten(user, host, port, path);
    CutAtSlash(Address(user, host, port), path);
  }

  lemma UserGone(user: Option<string>, host: string, port: Option<string>)
    requires '@' !in host && (port.Some? ==> '@' !in port.value)
    ensures AfterLast(Address(user, host, port), '@') == Address(None, host, port)
  {
    var rest := Address(None, host, port);
    assert '@' !in rest;
    if user.Some? {
      assert Address(user, host, port) == user.value + ['@'] + rest;
      AfterLastAt(user.value, '@', rest);
    } else {
      assert Address(user, host, port) == rest;
    }
  }

  lemma PortGone(host: string, port: Option<string>)
    requires port.Some? ==> ':' !in host && ':' !in port.value
    ensures StripPort(Address(None, host, port)) == StripPort(host)
  {
    if port.Some? {
      PortCut(host, port.value);
      assert Address(None, host, port) == host + ":" + port.value;
    } else {
      assert Address(None, host, port) == host;
    }
  }

  lemma AuthorityIs(scheme: Option<string>, user: Option<string>, host: string, port: Option<string>, path: Option<string>)
    requires WellParted(scheme, user, host, port, path)
    ensures Authority(Written(scheme, user, host, port, path)) == Address(None, host, port)
  {
    SchemeGone(scheme, user, host, port, path);
    PathGone(user, host, port, path);
    UserGone(user, host, port);
  }

  lemma HostOfParts(scheme: Option<string>, user: Option<string>, host: string, port: Option<string>, path: Option<string>)
    requires WellParted(scheme, user, host, port, path)
    ensures Host(Written(scheme, user, host, port, path)) == Host(host)
  {
    AuthorityIs(scheme, user, host, port, path);
    PortGone(host, port);
    assert Host(host) == StripBrackets(StripPort(host));
  }

  // ------------------------------------------------------ case and space

  lemma LowerJoins(a: string, b: string)
    ensures Lower(a + b) == Lower(a) + Lower(b)
  {
  }

  ghost function LowerPart(part: Option<string>): Option<string> {
    if part.Some? then Some(Lower(part.value)) else None
  }

  lemma LowerAddress(user: Option<string>, host: string, port: Option<string>)
    ensures Lower(Address(user, host, port)) == Address(LowerPart(user), Lower(host), LowerPart(port))
  {
    var u := if user.Some? then user.value + "@" else "";
    var p := if port.Some? then ":" + port.value else "";
    LowerJoins(u + host, p);
    LowerJoins(u, host);
    assert Lower("@") == "@" && Lower(":") == ":" && Lower("") == "";
    if user.Some? {
      LowerJoins(user.value, "@");
    }
    if port.Some? {
      LowerJoins(":", port.value);
    }
  }

  lemma LowerWritten(scheme: Option<string>, user: Option<string>, host: string, port: Option<string>, path: Option<string>)
    ensures Lower(Written(scheme, user, host, port, path)) ==
            Written(LowerPart(scheme), LowerPart(user), Lower(host), LowerPart(port), LowerPart(path))
  {
    var s := if scheme.Some? then scheme.value + "://" else "";
    var p := if path.Some? then "/" + path.value else "";
    LowerJoins(s + Address(user, host, port), p);
    LowerJoins(s, Address(user, host, port));
    LowerAddress(user, host, port);
    assert Lower("://") == "://" && Lower("/") == "/" && Lower("") == "";
    if scheme.Some? {
      LowerJoins(scheme.value, "://");
    }
    if path.Some? {
      LowerJoins("/", path.value);
    }
  }

  ghost predicate SchemeAt(s: string, i: int) {
    0 <= i && i + 3 <= |s| && s[i] == ':' && s[i + 1] == '/' && s[i + 2] == '/'
  }

  lemma PrefixIsAt(s: string, i: nat)
    requires i <= |s|
    ensures "://" <= s[i..] <==> SchemeAt(s, i)
  {
    if SchemeAt(s, i) {
      assert s[i..][..3] == [s[i], s[i + 1], s[i + 2]];
    }
    if "://" <= s[i..] {
      assert s[i..][0] == ':' && s[i..][1] == '/' && s[i..][2] == '/';
    }
  }

  lemma LowerHas(s: string)
    ensures Has(Lower(s), "://") <==> Has(s, "://")
  {
    forall i: nat | i <= |s| ensures "://" <= Lower(s)[i..] <==> "://" <= s[i..] {
      PrefixIsAt(s, i);
      PrefixIsAt(Lower(s), i);
    }
  }

  lemma LowerWithout(s: string, chars: set<char>)
    requires Without(s, chars) && forall c | c in chars :: !('A' <= c <= 'Z') && !('a' <= c <= 'z')
    ensures Without(Lower(s), chars)
  {
    forall c | c in Lower(s) ensures c !in chars {
      var i :| 0 <= i < |s| && Lower(s)[i] == c;
      assert s[i] in s && c == LowerChar(s[i]);
    }
  }

  lemma LowerParted(scheme: Option<string>, user: Option<string>, host: string, port: Option<string>, path: Option<string>)
    requires WellParted(scheme, user, host, port, path)
    ensures WellParted(LowerPart(scheme), LowerPart(user), Lower(host), LowerPart(port), LowerPart(path))
  {
    LowerWritten(scheme, user, host, port, path);
    if scheme.Some? {
      LowerHas(scheme.value);
    } else {
      LowerHas(Written(scheme, user, host, port, path));
    }
    LowerWithout(host, {'/', '@'});
    if user.Some? {
      assert Without(user.value, {'/'});
      LowerWithout(user.value, {'/'});
    }
    if port.Some? {
      assert Without(host, {':'});
      LowerWithout(host, {':'});
      LowerWithout(port.value, {'/', '@', ':'});
    }
  }

  // ------------------------------------------------------------- the laws

  /** The host decides. Whatever scheme, user info, port and path stand around it, and
      whatever space around the whole, a target is normalized like its host alone. */
  lemma NormalizedLikeItsHost(lib: Library, a: string, scheme: Option<string>, user: Option<string>, host: string,
                              port: Option<string>, path: Option<string>, b: string)
    requires WellParted(scheme, user, host, port, path) && Spaces(a) && Spaces(b)
    requires Stripped(Written(scheme, user, host, port, path)) && Stripped(host)
    ensures Normalize(lib, a + Written(scheme, user, host, port, path) + b) == Normalize(lib, host)
  {
    StripAround(a, Written(scheme, user, host, port, path), b);
    LowerWritten(scheme, user, host, port, path);
    LowerParted(scheme, user, host, port, path);
    HostOfParts(LowerPart(scheme), LowerPart(user), Lower(host), LowerPart(port), LowerPart(path));
  }

  ghost predicate PlainChar(c: char) {
    'a' <= c <= 'z' || 'A' <= c <= 'Z' || '0' <= c <= '9' || c == '.' || c == '-' || c == '*'
  }

  ghost predicate Dots(s: string) {
    forall i | 0 <= i < |s| :: s[i] == '.'
  }

  lemma {:induction false} DotsStripped(name: string, dots: string)
    requires Dots(dots) && (name == "" || name[|name| - 1] != '.')
    ensures RStripDots(name + dots) == name
  {
    var s := name + dots;
    if dots == "" {
      assert s == name;
    } else {
      assert s[..|s| - 1] == name + dots[..|dots| - 1];
      DotsStripped(name, dots[..|dots| - 1]);
    }
  }

  lemma LowerPlain(s: string)
    requires forall c | c in s :: PlainChar(c)
    ensures forall c | c in Lower(s) :: SafeChar(c) && c != ':' && c != '['
    ensures Stripped(s)
  {
    forall c | c in Lower(s) ensures SafeChar(c) && c != ':' && c != '[' {
      var i :| 0 <= i < |s| && Lower(s)[i] == c;
      assert s[i] in s;
    }
    if s != "" {
      assert s[0] in s && s[|s| - 1] in s;
    }
  }

  lemma NormalOf(lib: Library, s: string, host: string)
    requires Stripped(s) && Host(Lower(s)) == host && Ascii(host)
    ensures Normalize(lib, s) == SafeForm(host)
  {
  }

  lemma SafeFormOf(s: string)
    requires (forall c | c in s :: SafeChar(c)) && 1 <= |s| <= 253
    ensures SafeForm(s) == Ok(RStripDots(s))
  {
    assert s[|s| - 1] in s;
    assert BeforeNewline(s) == s;
  }

  lemma LowerDots(dots: string)
    requires Dots(dots)
    ensures Lower(dots) == dots
  {
  }

  /** A plain host is normalized to itself in lower case, without its final dots. */
  lemma PlainHostNormal(lib: Library, name: string, dots: string)
    requires (forall c | c in name :: PlainChar(c)) && Dots(dots) && (name == "" || name[|name| - 1] != '.')
    requires 1 <= |name + dots| <= 253
    ensures Normalize(lib, name + dots) == Ok(Lower(name))
  {
    var s, low := name + dots, Lower(name + dots);
    LowerPlain(s);
    SafeStripped(low);
    PlainHostOf(low);
    NormalOf(lib, s, low);
    SafeFormOf(low);
    DotsOff(name, dots);
  }

  lemma PlainHostOf(s: string)
    requires forall c | c in s :: SafeChar(c) && c != ':' && c != '['
    ensures Host(s) == s
  {
    SafeStripped(s);
    ColonsIn(s);
    PlainHost(s);
    assert s != "" ==> s[0] in s;
  }

  lemma LowerColons(s: string)
    ensures Colons(Lower(s)) == Colons(s)
  {
    SameColons(s, Lower(s));
  }

  lemma {:induction false} SameColons(s: string, t: string)
    requires |s| == |t| && forall i | 0 <= i < |s| :: s[i] == ':' <==> t[i] == ':'
    ensures Colons(s) == Colons(t)
  {
    if s != "" {
      SameColons(s[..|s| - 1], t[..|t| - 1]);
    }
  }

  lemma UncutHost(s: string)
    requires Without(s, {'/', '@'}) && Colons(s) != 1
    ensures Host(s) == StripBrackets(s)
  {
    PlainHost(s);
  }

  lemma NormalByHost(lib: Library, s: string, host: string)
    requires Stripped(s) && Host(Lower(s)) == host
    ensures Normalize(lib, s) == Checked(lib, host)
  {
  }

  /** An IPv6 address in brackets is normalized like the address. */
  lemma BracketsOff(lib: Library, address: string)
    requires Without(address, {'/', '@', '[', ']'}) && Colons(address) >= 2 && Stripped(address)
    ensures Normalize(lib, "[" + address + "]") == Normalize(lib, address)
  {
    LowerBrackets(address);
    LowerWithout(address, {'/', '@', '[', ']'});
    LowerColons(address);
    InBrackets(Lower(address));
    NormalByHost(lib, "[" + address + "]", Lower(address));
    NormalByHost(lib, address, Lower(address));
  }

  lemma LowerBrackets(address: string)
    ensures Lower("[" + address + "]") == "[" + Lower(address) + "]"
  {
    LowerJoins("[" + address, "]");
    LowerJoins("[", address);
    assert Lower("[") == "[" && Lower("]") == "]";
  }

  lemma InBrackets(address: string)
    requires Without(address, {'/', '@', '[', ']'}) && Colons(address) >= 2
    ensures Host("[" + address + "]") == address && Host(address) == address
  {
    var text := "[" + address + "]";
    BracketedColons(address);
    BracketedParts(address);
    UncutHost(text);
    UncutHost(address);
    assert address != "" ==> address[0] in address;
  }

  lemma BracketedParts(address: string)
    requires Without(address, {'/', '@'})
    ensures var text := "[" + address + "]";
            Bracketed(text) && text[1..|text| - 1] == address && Without(text, {'/', '@'})
  {
  }

  lemma BracketedColons(address: string)
    ensures Colons("[" + address + "]") == Colons(address)
  {
    var text := "[" + address + "]";
    assert text[1..] == address + "]" && (address + "]")[..|address|] == address;
    ColonsOfTail(text);
  }

  /** A port behind an address with colons, in brackets or not, is not cut off. */
  lemma PortKept(lib: Library, host: string, port: string)
    requires ':' in host && |host| + 1 + |port| <= 253
    requires (forall c | c in host :: SafeChar(c)) && forall c | c in port :: SafeChar(c)
    requires port != "" && port[|port| - 1] != '.' && port[|port| - 1] != ']'
    ensures Normalize(lib, host + ":" + port) == Ok(host + ":" + port)
  {
    var s := host + ":" + port;
    SafeJoined(host, port);
    SafeStripped(s);
    TwoColons(host, port);
    NoneOf(s);
    UncutHost(s);
    assert s[|s| - 1] == port[|port| - 1];
    NormalOf(lib, s, s);
    SafeFormOf(s);
  }

  lemma SafeJoined(host: string, port: string)
    requires (forall c | c in host :: SafeChar(c)) && forall c | c in port :: SafeChar(c)
    ensures forall c | c in host + ":" + port :: SafeChar(c)
  {
  }

  lemma NoneOf(s: string)
    requires forall c | c in s :: SafeChar(c)
    ensures Without(s, {'/', '@'})
  {
  }

  lemma {:induction false} TwoColons(host: string, port: string)
    requires ':' in host
    ensures Colons(host + ":" + port) >= 2
  {
    var s := host + ":" + port;
    if port == "" {
      assert s[..|s| - 1] == host;
      ColonsIn(host);
    } else {
      assert s[..|s| - 1] == host + ":" + port[..|port| - 1];
      TwoColons(host, port[..|port| - 1]);
    }
  }

  lemma UnbracketedHost(s: string)
    requires Without(s, {'/', '@', ':', '['})
    ensures Host(s) == s
  {
    ColonsIn(s);
    UncutHost(s);
    assert s != "" ==> s[0] in s;
  }

  lemma LowerUncut(s: string)
    requires Without(s, {'/', '@', ':', '['})
    ensures Host(Lower(s)) == Lower(s)
  {
    LowerWithout(s, {'/', '@', ':', '['});
    UnbracketedHost(Lower(s));
  }

  lemma CheckedEncoded(lib: Library, host: string)
    requires !Ascii(host) && '*' !in host && Colons(host) == 0
    ensures Checked(lib, host) ==
            if lib.idna(host).Some? then SafeForm(Lower(lib.idna(host).value)) else InvalidTarget
  {
  }

  lemma LowerKeepsStar(s: string)
    requires Without(s, {'*', ':'})
    ensures '*' !in Lower(s) && Colons(Lower(s)) == 0
  {
    LowerWithout(s, {'*', ':'});
    ColonsIn(Lower(s));
  }

  lemma BrokenHost(host: string)
    requires Without(host, {'/', '@', ':', '['}) && host != ""
    ensures Host(host + "\n" + "/") == host + "\n"
  {
    var broken := host + "\n";
    assert Written(None, None, broken, None, Some("")) == broken + "/";
    NoSlashes(host);
    HostOfParts(None, None, broken, None, Some(""));
    UnbracketedHost(broken);
  }

  lemma NoSlashes(host: string)
    requires Without(host, {'/', ':'})
    ensures !Has(host + "\n" + "/", "://")
  {
    var s := host + "\n" + "/";
    forall i: nat | i <= |s| ensures !("://" <= s[i..]) {
      PrefixIsAt(s, i);
    }
  }

  lemma BrokenForm(host: string)
    requires (forall c | c in host :: SafeChar(c)) && 1 <= |host| <= 253
    ensures SafeForm(host + "\n") == Ok(host + "\n")
  {
    assert BeforeNewline(host + "\n") == host;
  }

  lemma LowerSafe(host: string, end: string)
    requires (forall c | c in host :: SafeChar(c)) && Lower(end) == end
    ensures Lower(host + end) == host + end
  {
    LowerJoins(host, end);
    SafeStripped(host);
  }

  lemma BrokenText(host: string)
    requires (forall c | c in host :: SafeChar(c)) && host != ""
    ensures Lower(host + "\n" + "/") == host + "\n" + "/" && Stripped(host + "\n" + "/")
  {
    assert host + "\n" + "/" == host + "\n/" && Lower("\n/") == "\n/";
    LowerSafe(host, "\n/");
    assert host[0] in host;
  }

  lemma NewlineStays(lib: Library, host: string)
    requires (forall c | c in host :: SafeChar(c)) && Without(host, {'/', '@', ':', '['}) && 1 <= |host| <= 253
    ensures Normalize(lib, host + "\n" + "/") == Ok(host + "\n")
  {
    BrokenText(host);
    BrokenHost(host);
    BrokenForm(host);
    AsciiBroken(host);
    NormalOf(lib, host + "\n" + "/", host + "\n");
  }

  lemma AsciiBroken(host: string)
    requires forall c | c in host :: SafeChar(c)
    ensures Ascii(host + "\n")
  {
  }

  lemma SameStrip(lib: Library, a: string, b: string)
    requires Strip(a) == Strip(b)
    ensures Normalize(lib, a) == Normalize(lib, b)
  {
  }

  lemma NewlineLeaves(lib: Library, host: string)
    requires (forall c | c in host :: SafeChar(c)) && Without(host, {'/', '@', ':', '['}) && 1 <= |host| <= 253
    requires host[|host| - 1] != '.'
    ensures Normalize(lib, host + "\n") == Ok(host)
  {
    StripAfter(host, "\n");
    SameStrip(lib, host + "\n", host);
    SafeNormal(lib, host);
  }

  lemma SafeNormal(lib: Library, host: string)
    requires (forall c | c in host :: SafeChar(c)) && Without(host, {'/', '@', ':', '['}) && 1 <= |host| <= 253
    requires host[|host| - 1] != '.'
    ensures Normalize(lib, host) == Ok(host)
  {
    SafeStripped(host);
    UnbracketedHost(host);
    NormalOf(lib, host, host);
    SafeFormOf(host);
  }

  lemma SafeIsWithout(host: string)
    requires forall c | c in host :: SafeChar(c) && c != ':' && c != '['
    ensures Without(host, {'/', '@', ':', '['}) && forall c | c in host :: SafeChar(c)
  {
  }

  /** The newline exception is real, for every host: a newline before the path survives
      the first pass, and a second pass takes it away. */
  lemma NewlineSlipsThrough(lib: Library, host: string)
    requires (forall c | c in host :: SafeChar(c) && c != ':' && c != '[') && 1 <= |host| <= 253
    requires host[|host| - 1] != '.'
    ensures Normalize(lib, host + "\n" + "/") == Ok(host + "\n") && Normalize(lib, host + "\n") == Ok(host)
  {
    SafeIsWithout(host);
    NewlineStays(lib, host);
    NewlineLeaves(lib, host);
  }

  /** A host that is not ASCII is normalized like its IDNA form. */
  lemma EncodedHost(lib: Library, host: string, encoded: string)
    requires Without(host, {'/', '@', ':', '*', '['}) && Stripped(host) && !Ascii(Lower(host))
    requires lib.idna(Lower(host)) == Some(encoded)
    requires Ascii(encoded) && Without(encoded, {'/', '@', ':', '['}) && Stripped(encoded)
    ensures Normalize(lib, host) == Normalize(lib, encoded)
  {
    assert Without(host, {'/', '@', ':', '['}) && Without(host, {'*', ':'});
    LowerUncut(host);
    LowerKeepsStar(host);
    CheckedEncoded(lib, Lower(host));
    LowerUncut(encoded);
    LowerAscii(encoded);
    NormalOf(lib, encoded, Lower(encoded));
  }

  /** And it is refused when it has none. */
  lemma NotEncodable(lib: Library, host: string)
    requires Without(host, {'/', '@', ':', '*', '['}) && Stripped(host) && !Ascii(Lower(host))
    requires lib.idna(Lower(host)) == None
    ensures Normalize(lib, host) == InvalidTarget
  {
    assert Without(host, {'/', '@', ':', '['}) && Without(host, {'*', ':'});
    LowerUncut(host);
    LowerKeepsStar(host);
    CheckedEncoded(lib, Lower(host));
  }

  // ------------------------------------------------- patterns and blocks

  /** A pattern is taken without space around it, in lower case, without final dots. */
  lemma CleanedIs(a: string, name: string, dots: string, b: string)
    requires Spaces(a) && Spaces(b) && Dots(dots) && Stripped(name) && name != "" && name[|name| - 1] != '.'
    ensures Cleaned(a + (name + dots) + b) == Lower(name)
  {
    StripAround(a, name + dots, b);
    SameStripCleaned(a + (name + dots) + b, name + dots);
    NameStripped(name, dots);
    CleanedStripped(name + dots);
    DotsOff(name, dots);
  }

  lemma CleanedStripped(s: string)
    requires Strip(s) == s
    ensures Cleaned(s) == RStripDots(Lower(s))
  {
  }

  lemma DotsOff(name: string, dots: string)
    requires Dots(dots) && (name == "" || name[|name| - 1] != '.')
    ensures RStripDots(Lower(name + dots)) == Lower(name)
  {
    LowerJoins(name, dots);
    LowerDots(dots);
    DotsStripped(Lower(name), dots);
  }

  lemma SameStripCleaned(a: string, b: string)
    requires Strip(a) == Strip(b)
    ensures Cleaned(a) == Cleaned(b)
  {
  }

  lemma NameStripped(name: string, dots: string)
    requires Stripped(name) && name != "" && Dots(dots)
    ensures Stripped(name + dots) && Strip(name + dots) == name + dots
  {
    assert dots != "" ==> dots[|dots| - 1] == '.';
  }

  /** `^(?!-)[a-z0-9_-]{1,63}(?<!-)$` on a label of at most 63 characters. */
  ghost predicate GoodLabel(part: string) {
    && 1 <= |part| <= 63
    && var n := if part[|part| - 1] == '\n' then |part| - 1 else |part|;
       && n >= 1 && part[0] != '-' && part[n - 1] != '-'
       && forall i | 0 <= i < n :: 'a' <= part[i] <= 'z' || '0' <= part[i] <= '9' || part[i] == '_' || part[i] == '-'
  }

  lemma LabelIff(part: string)
    ensures 1 <= |part| <= 63 && LabelMatches(part) <==> GoodLabel(part)
  {
    var core := BeforeNewline(part);
    if part != "" {
      assert (forall c | c in core :: LabelChar(c)) <==> forall i | 0 <= i < |core| :: LabelChar(core[i]);
    }
  }

  lemma {:induction false} SplitJoined(labels: seq<string>)
    requires labels != [] && forall part | part in labels :: '.' !in part
    ensures Split(JoinDots(labels)) == labels
  {
    SplitOne(labels[0]);
    if |labels| == 1 {
      assert labels == [labels[0]];
    } else {
      SplitAppend(labels[0], JoinDots(labels[1..]));
      SplitJoined(labels[1..]);
      assert labels == [labels[0]] + labels[1..];
    }
  }

  lemma {:induction false} SplitOne(s: string)
    requires '.' !in s
    ensures Split(s) == [s]
  {
    if s != "" {
      SplitOne(s[1..]);
      assert [s[0]] + s[1..] == s;
    }
  }

  /** Labels joined by dots are a valid domain iff each label is good and the whole is not
      too long. */
  lemma DomainOfLabels(labels: seq<string>)
    requires labels != [] && forall part | part in labels :: '.' !in part
    ensures ValidDomain(JoinDots(labels)) <==>
            |JoinDots(labels)| <= 253 && forall part | part in labels :: GoodLabel(part)
  {
    SplitJoined(labels);
    forall part | part in labels ensures 1 <= |part| <= 63 && LabelMatches(part) <==> GoodLabel(part) {
      LabelIff(part);
    }
  }

  /** The loopback and metadata names are refused however they are written. */
  lemma BlockedHowever(lib: Library, a: string, scheme: Option<string>, user: Option<string>, name: string, dots: string,
                       port: Option<string>, path: Option<string>, b: string, entries: seq<Entry>)
    requires WellParted(scheme, user, name + dots, port, path) && Spaces(a) && Spaces(b)
    requires Stripped(Written(scheme, user, name + dots, port, path)) && Dots(dots) && |name + dots| <= 253
    requires (forall c | c in name :: PlainChar(c)) && name != "" && name[|name| - 1] != '.'
    requires || Lower(name) == "localhost" || Lower(name) == "ip6-localhost" || Lower(name) == "169.254.169.254"
             || Lower(name) == "metadata.google.internal"
    ensures !Permits(lib, a + Written(scheme, user, name + dots, port, path) + b, entries)
  {
    var text := a + Written(scheme, user, name + dots, port, path) + b;
    LowerPlain(name + dots);
    NormalizedLikeItsHost(lib, a, scheme, user, name + dots, port, path, b);
    PlainHostNormal(lib, name, dots);
    JudgeBlocks(lib, Lower(name), entries);
    RefusedByName(lib, text, Lower(name), entries);
  }

  lemma JudgeBlocks(lib: Library, target: string, entries: seq<Entry>)
    requires target in HARD_BLOCKED_HOSTS
    ensures Judge(lib, target, entries) == Ok(Decision(false, HardBlockedHost))
  {
  }

  lemma RefusedByName(lib: Library, text: string, target: string, entries: seq<Entry>)
    requires Normalize(lib, text) == Ok(target) && Judge(lib, target, entries) == Ok(Decision(false, HardBlockedHost))
    ensures !Permits(lib, text, entries)
  {
  }
}
