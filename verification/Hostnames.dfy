/** Whether a listener's hostname and a Route's hostnames have a hostname in common. */
module Hostnames {
  import opened Wrappers

  // ---------------------------------------------------------------- library functions

  function LowerChar(c: char): char {
    if 'A' <= c <= 'Z' then (c as int + 32) as char else c
  }

  /** strings.ToLower, for the letters a hostname can have. */
  function Lower(s: string): (r: string)
    ensures |r| == |s| && forall k :: 0 <= k < |s| ==> r[k] == LowerChar(s[k])
  {
    if s == "" then "" else [LowerChar(s[0])] + Lower(s[1..])
  }

  /** path.Match for patterns without character classes and escapes. */
  predicate Match(pattern: string, name: string)
    decreases |pattern| + |name|
  {
    if pattern == "" then name == ""
    else if pattern[0] == '*' then
      Match(pattern[1..], name) || (name != "" && name[0] != '/' && Match(pattern, name[1..]))
    else
      && name != ""
      && (if pattern[0] == '?' then name[0] != '/' else name[0] == pattern[0])
      && Match(pattern[1..], name[1..])
  }

  // ---------------------------------------------------------------- the test

  predicate HostnamesMatches(pattern: string, hostname: string) {
    Match(Lower(pattern), Lower(hostname))
  }

  predicate Intersect(listener: string, route: string) {
    HostnamesMatches(listener, route) || HostnamesMatches(route, listener)
  }

  /** listenerHostnameIntersectsRouteHostnames. */
  method ListenerHostnameIntersectsRouteHostnames(listenerHostname: Option<string>, routes: seq<string>)
    returns (r: bool)
    ensures r <==> listenerHostname.GetOr("") == "" || routes == [] || exists h ::
          h in routes && Intersect(listenerHostname.GetOr(""), h)
  {
    var lH := listenerHostname.GetOr("");
    if lH == "" || |routes| == 0 {
      return true;
    }
    for i := 0 to |routes|
      invariant forall k :: 0 <= k < i ==> !Intersect(lH, routes[k])
    {
      if HostnamesMatches(lH, routes[i]) || HostnamesMatches(routes[i], lH) {
        assert routes[i] in routes && Intersect(lH, routes[i]);
        return true;
      }
    }
    return false;
  }

  // ---------------------------------------------------------------- what hostnames stand for

  /** A hostname without wildcard. */
  predicate Concrete(h: string) {
    h != "" && h[0] != '.' && forall c :: c in h ==> HostChar(c)
  }

  predicate HostChar(c: char) {
    c !in {'*', '?', '/', '[', '\\'}
  }

  /** A hostname of the Gateway API: exact, or with a first label that is a wildcard. */
  predicate IsHostname(p: string) {
    Concrete(p) || IsWildcard(p)
  }

  predicate IsWildcard(p: string) {
    |p| > 2 && p[0] == '*' && p[1] == '.' && Concrete(p[2..])
  }

  predicate EndsWith(s: string, suffix: string) {
    |suffix| <= |s| && s[|s| - |suffix|..] == suffix
  }

  /** The concrete hostnames a pattern stands for, ignoring case: the pattern itself, or everything
      with at least one character in place of the wildcard. */
  predicate StandsFor(p: string, h: string) {
    if IsWildcard(p) then |h| >= |p| && EndsWith(Lower(h), Lower(p[1..])) else Lower(h) == Lower(p)
  }

  predicate Literal(p: string) {
    forall c :: c in p ==> c != '*' && c != '?'
  }

  lemma {:induction false} MatchLiteral(p: string, s: string)
    requires Literal(p)
    ensures Match(p, s) <==> p == s
  {
    if p != "" {
      assert p[0] in p && forall c :: c in p[1..] ==> c in p;
      if s != "" {
        MatchLiteral(p[1..], s[1..]);
        assert p == [p[0]] + p[1..] && s == [s[0]] + s[1..];
      }
    }
  }

  lemma {:induction false} MatchStar(p: string, s: string)
    requires Literal(p) && '/' !in s
    ensures Match("*" + p, s) <==> EndsWith(s, p)
    decreases |s|
  {
    var star := "*" + p;
    assert star[1..] == p;
    MatchLiteral(p, s);
    if s != "" {
      MatchStar(p, s[1..]);
      assert |p| < |s| ==> s[|s| - |p|..] == s[1..][|s[1..]| - |p|..];
      assert |p| == |s| ==> s[|s| - |p|..] == s;
    }
  }

  lemma {:induction false} LowerParts(p: string, n: nat)
    requires n <= |p|
    ensures Lower(p[n..]) == Lower(p)[n..] && Lower(p[..n]) == Lower(p)[..n]
  {
  }

  lemma {:induction false} LowerKeepsConcrete(h: string)
    requires Concrete(h)
    ensures Literal(Lower(h)) && '/' !in Lower(h) && Lower(h) != "" && Lower(h)[0] != '.'
  {
    forall c | c in Lower(h) ensures c != '*' && c != '?' && c != '/' {
      var k :| 0 <= k < |h| && Lower(h)[k] == c;
      assert h[k] in h;
    }
  }

  /** The shape of a lower-cased wildcard: a star and a literal rest. */
  lemma {:induction false} WildcardParts(p: string)
    requires IsWildcard(p)
    ensures var q := Lower(p[1..]);
      Lower(p) == "*" + q && Literal(q) && '/' !in q && |q| == |p| - 1 && q[0] == '.'
  {
    LowerParts(p, 1);
    LowerKeepsConcrete(p[2..]);
    LowerParts(p[1..], 1);
    assert p[1..][1..] == p[2..];
    assert Lower(p[1..]) == "." + Lower(p[2..]);
  }

  /** What the glob test says for each of the two shapes of a pattern. */
  lemma {:induction false} MatchMeans(p: string, h: string)
    requires IsHostname(p) && IsHostname(h)
    ensures HostnamesMatches(p, h) <==>
        if IsWildcard(p) then EndsWith(Lower(h), Lower(p[1..])) else Lower(p) == Lower(h)
  {
    if IsWildcard(h) {
      WildcardParts(h);
    } else {
      LowerKeepsConcrete(h);
    }
    if IsWildcard(p) {
      WildcardParts(p);
      MatchStar(Lower(p[1..]), Lower(h));
    } else {
      LowerKeepsConcrete(p);
      MatchLiteral(Lower(p), Lower(h));
    }
  }

  lemma {:induction false} EndsWithShorter(s: string, a: string, b: string)
    requires EndsWith(s, a) && EndsWith(s, b) && |a| <= |b|
    ensures EndsWith(b, a)
  {
    assert b == s[|s| - |b|..];
    assert b[|b| - |a|..] == s[|s| - |a|..];
  }

  lemma {:induction false} EndsWithTransitive(s: string, a: string, b: string)
    requires EndsWith(s, b) && EndsWith(b, a)
    ensures EndsWith(s, a)
  {
    assert b[|b| - |a|..] == s[|s| - |a|..];
  }

  /** The witness: a concrete hostname that both stand for. */
  function Common(p: string, q: string): string {
    if !IsWildcard(p) then p
    else if !IsWildcard(q) then q
    else if |p| >= |q| then "x" + p[1..]
    else "x" + q[1..]
  }

  lemma {:induction false} ConcreteWitness(p: string)
    requires IsWildcard(p)
    ensures Concrete("x" + p[1..]) && Lower("x" + p[1..]) == "x" + Lower(p[1..])
  {
    var h := "x" + p[1..];
    forall c | c in h ensures HostChar(c) {
      var k :| 0 <= k < |h| && h[k] == c;
      if k >= 2 {
        assert p[2..][k - 2] == c && c in p[2..];
      }
    }
    assert h[1..] == p[1..];
    LowerParts(h, 1);
  }

  lemma {:induction false} WildcardsHaveCommon(p: string, q: string)
    requires IsHostname(p) && IsHostname(q) && HostnamesMatches(p, q) && IsWildcard(p) && IsWildcard(q)
    ensures Concrete(Common(p, q)) && StandsFor(p, Common(p, q)) && StandsFor(q, Common(p, q))
  {
    MatchMeans(p, q);
    WildcardParts(p);
    WildcardParts(q);
    var longer := if |p| >= |q| then p else q;
    ConcreteWitness(longer);
    var h := "x" + Lower(longer[1..]);
    assert EndsWith(h, Lower(longer[1..])) by {
      assert h[1..] == Lower(longer[1..]);
    }
    EndsWithShorter(Lower(q), Lower(p[1..]), Lower(q[1..]));
    assert Lower(q)[1..] == Lower(q[1..]);
    if |p| < |q| {
      EndsWithTransitive(h, Lower(p[1..]), Lower(q[1..]));
    } else {
      assert |p| == |q|;
    }
  }

  lemma {:induction false} MatchHasCommon(p: string, q: string)
    requires IsHostname(p) && IsHostname(q) && HostnamesMatches(p, q)
    ensures Concrete(Common(p, q)) && StandsFor(p, Common(p, q)) && StandsFor(q, Common(p, q))
  {
    MatchMeans(p, q);
    if IsWildcard(p) {
      WildcardParts(p);
      if IsWildcard(q) {
        WildcardsHaveCommon(p, q);
      } else {
        LowerKeepsConcrete(q);
      }
    }
  }

  lemma {:induction false} CommonMeansMatch(p: string, q: string, h: string)
    requires IsHostname(p) && IsHostname(q) && Concrete(h) && StandsFor(p, h) && StandsFor(q, h)
    ensures Intersect(p, q)
  {
    MatchMeans(p, q);
    MatchMeans(q, p);
    if IsWildcard(p) && IsWildcard(q) {
      WildcardParts(p);
      WildcardParts(q);
      var a, b := Lower(p[1..]), Lower(q[1..]);
      if |a| <= |b| {
        EndsWithShorter(Lower(h), a, b);
        assert EndsWith(Lower(q), b) by { assert Lower(q)[1..] == b; }
        EndsWithTransitive(Lower(q), a, b);
      } else {
        EndsWithShorter(Lower(h), b, a);
        assert EndsWith(Lower(p), a) by { assert Lower(p)[1..] == a; }
        EndsWithTransitive(Lower(p), b, a);
      }
    }
  }

  /** For exact and wildcard hostnames the two-way test is true if and only if some concrete
      hostname is one that both stand for, ignoring case. */
  lemma {:induction false} IntersectIff(p: string, q: string)
    requires IsHostname(p) && IsHostname(q)
    ensures Intersect(p, q) <==> exists h :: Concrete(h) && StandsFor(p, h) && StandsFor(q, h)
  {
    if HostnamesMatches(p, q) {
      MatchHasCommon(p, q);
    } else if HostnamesMatches(q, p) {
      MatchHasCommon(q, p);
    }
    if h :| Concrete(h) && StandsFor(p, h) && StandsFor(q, h) {
      CommonMeansMatch(p, q, h);
    }
  }

  // ---------------------------------------------------------------- case

  /** The same letter, in either case. */
  predicate SameLetter(c: char, d: char) {
    || c == d
    || ('A' <= c <= 'Z' && d as int == c as int + 32)
    || ('A' <= d <= 'Z' && c as int == d as int + 32)
  }

  predicate SameButCase(a: string, b: string) {
    |a| == |b| && forall k :: 0 <= k < |a| ==> SameLetter(a[k], b[k])
  }

  lemma {:induction false} LowerIff(a: string, b: string)
    ensures Lower(a) == Lower(b) <==> SameButCase(a, b)
  {
    forall k | 0 <= k < |a| && |a| == |b| ensures Lower(a)[k] == Lower(b)[k] <==> SameLetter(a[k], b[k]) {
    }
    if SameButCase(a, b) {
      assert Lower(a) == Lower(b);
    }
  }

  /** The answer does not depend on the case of letters, in patterns or in names, and on exact hostnames it
      tells apart all that differ in more. */
  lemma {:induction false} CaseIsIgnored(p: string, p': string, q: string, q': string)
    requires SameButCase(p, p') && SameButCase(q, q')
    ensures Intersect(p, q) <==> Intersect(p', q')
    ensures Concrete(p) && Concrete(q) ==> (Intersect(p, q) <==> SameButCase(p, q))
  {
    LowerIff(p, p');
    LowerIff(q, q');
    LowerIff(p, q);
    if Concrete(p) && Concrete(q) {
      LowerKeepsConcrete(p);
      LowerKeepsConcrete(q);
      MatchLiteral(Lower(p), Lower(q));
      MatchLiteral(Lower(q), Lower(p));
    }
    hide Match, Lower, SameButCase;
  }
}
