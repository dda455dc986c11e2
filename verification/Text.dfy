/** String helpers with Python's meaning on ASCII text. */
module Text {

  /** `str.isspace` on an ASCII character. */
  predicate IsSpace(c: char) {
    '\t' <= c <= '\r' || '\U{1c}' <= c <= ' '
  }

  function StripStart(s: string): (r: string)
    ensures r == [] || !IsSpace(r[0])
    ensures |r| <= |s| && r == s[|s| - |r|..]
  {
    if s != [] && IsSpace(s[0]) then StripStart(s[1..]) else s
  }

  function StripEnd(s: string): (r: string)
    ensures r == [] || !IsSpace(r[|r| - 1])
    ensures r <= s
  {
    if s != [] && IsSpace(s[|s| - 1]) then StripEnd(s[..|s| - 1]) else s
  }

  /** No space at either end. */
  predicate Stripped(s: string) {
    s == [] || (!IsSpace(s[0]) && !IsSpace(s[|s| - 1]))
  }

  function Strip(s: string): (r: string)
    ensures Stripped(r)
    ensures Stripped(s) ==> r == s
  {
    StripEnd(StripStart(s))
  }

  function LowerChar(c: char): (r: char)
    ensures 'A' <= c <= 'Z' ==> 'a' <= r <= 'z' && r as int - 'a' as int == c as int - 'A' as int
    ensures !('A' <= c <= 'Z') ==> r == c
  {
    if 'A' <= c <= 'Z' then c + ' ' else c
  }

  function Lower(s: string): (r: string)
    ensures |r| == |s| && forall i | 0 <= i < |s| :: r[i] == LowerChar(s[i])
  {
    seq(|s|, i requires 0 <= i < |s| => LowerChar(s[i]))
  }

  ghost predicate Spaces(s: string) {
    forall c | c in s :: IsSpace(c)
  }

  /** Space around a text does not matter. */
  lemma StripAround(a: string, s: string, b: string)
    requires Spaces(a) && Spaces(b)
    ensures Strip(a + s + b) == Strip(s)
  {
    StripBefore(a, s + b);
    assert a + s + b == a + (s + b);
    StripAfter(s, b);
  }

  lemma {:induction false} StripBefore(a: string, s: string)
    requires Spaces(a)
    ensures Strip(a + s) == Strip(s)
  {
    if a == "" {
      assert a + s == s;
    } else {
      assert a[0] in a && (a + s)[1..] == a[1..] + s;
      StripBefore(a[1..], s);
    }
  }

  lemma {:induction false} StripAfter(s: string, b: string)
    requires Spaces(b)
    ensures Strip(s + b) == Strip(s)
  {
    if s == "" {
      assert s + b == b + s;
      StripBefore(b, s);
    } else if IsSpace(s[0]) {
      assert (s + b)[1..] == s[1..] + b;
      StripAfter(s[1..], b);
    } else {
      StripEndAfter(s, b);
    }
  }

  lemma {:induction false} StripEndAfter(s: string, b: string)
    requires Spaces(b)
    ensures StripEnd(s + b) == StripEnd(s)
  {
    if b == "" {
      assert s + b == s;
    } else {
      var t := s + b;
      assert t[|t| - 1] == b[|b| - 1] && b[|b| - 1] in b && t[..|t| - 1] == s + b[..|b| - 1];
      StripEndAfter(s, b[..|b| - 1]);
    }
  }
}
