/**
 The names under which the Kong resources of a Route are written, and why Routes of different kinds
 never write the same one.
 */
module Naming {
  import opened Strings
  import opened HybridState

  datatype RouteKind = HTTPRoute | GRPCRoute | TLSRoute | TCPRoute | UDPRoute

  const MAX_LEN := 253
  const TERMINATION := "request-termination"

  function ProtocolPrefix(kind: RouteKind): string {
    match kind
    case HTTPRoute => "http"
    case GRPCRoute => "grpc"
    case TLSRoute => "tls"
    case TCPRoute => "tcp"
    case UDPRoute => "udp"
  }

  /** What is hashed of a rule's filters: one filter or a list of them, of the Go type of the Route's kind. */
  datatype Filters = Filters(kind: RouteKind, merged: bool, text: string)

  /** Hash32 of filters and Hash64 of a list of names. */
  datatype Hashing = Hashing(ofFilters: Filters -> string, ofNames: seq<string> -> string)

  predicate IsHex(s: string) {
    forall c :: c in s ==> '0' <= c <= '9' || 'a' <= c <= 'f'
  }

  /** No two values that occur have the same hash; hashes are printed in hexadecimal. */
  ghost predicate NoCollisions(h: Hashing) {
    && (forall f :: IsHex(h.ofFilters(f))) && (forall ns :: IsHex(h.ofNames(ns)))
    && (forall f, g :: h.ofFilters(f) == h.ofFilters(g) ==> f == g)
    && (forall ms, ns :: h.ofNames(ms) == h.ofNames(ns) ==> ms == ns)
  }

  function NewName(h: Hashing, elements: seq<string>): string {
    var name := Join(elements, '.');
    if |name| <= MAX_LEN then name else "ngn" + h.ofNames(elements)
  }

  /** strings.TrimRight with the cutset ".-". */
  function TrimRight(s: string): string {
    if s != "" && s[|s| - 1] in {'.', '-'} then TrimRight(s[..|s| - 1]) else s
  }

  function NewNameWithHashSuffix(h: Hashing, readable: seq<string>, hashes: seq<string>): string {
    var name := Join(readable + hashes, '.');
    if |name| <= MAX_LEN then name
    else if hashes == [] then "ngn" + h.ofNames(readable + hashes)
    else
      var hashPart := Join(hashes, '.');
      if |hashPart| > MAX_LEN then "ngn" + h.ofNames(readable + hashes)
      else
        var remaining := MAX_LEN - |hashPart| - 1;
        if remaining <= 0 || readable == [] then hashPart
        else
          var readablePart := Join(readable, '.');
          (if |readablePart| > remaining then TrimRight(readablePart[..remaining]) else readablePart) + "." + hashPart
  }

  /** The ways a Route names what it generates: an upstream, service or route, with what it is made of
      and its hashes; something below one of these; a plugin for filters. */
  datatype Named =
    | Prefixed(readable: seq<string>, hashes: seq<string>)
    | Below(readable: seq<string>, hashes: seq<string>, suffix: string)
    | ForFilters(namespace: string, plugin: string, merged: bool, text: string)

  function NameOf(h: Hashing, kind: RouteKind, n: Named): string {
    match n
    case Prefixed(readable, hashes) => NewNameWithHashSuffix(h, [ProtocolPrefix(kind)] + readable, hashes)
    case Below(readable, hashes, suffix) => NewName(h,
        [NewNameWithHashSuffix(h, [ProtocolPrefix(kind)] + readable, hashes), suffix])
    case ForFilters(namespace, plugin, merged, text) => NewName(h,
        [namespace, plugin, h.ofFilters(Filters(kind, merged, text))])
  }

  /** At most five hash elements of at most 24 characters: 32-bit hashes with two letters before them,
      and indexes. */
  predicate Short(hashes: seq<string>) {
    1 <= |hashes| <= 5 && forall e :: e in hashes ==> |e| <= 24
  }

  /** How the objects of each kind are named. */
  predicate NamedAs(kind: Kind, n: Named) {
    match kind
    case KongUpstream => n.Prefixed? && Short(n.hashes)
    case KongService => n.Prefixed? && Short(n.hashes)
    case KongCertificate => n.Prefixed? && Short(n.hashes)
    case KongReferenceGrant => n.Prefixed? && Short(n.hashes)
    case KongRoute => n.Prefixed? && Short(n.hashes)
    case KongTarget => n.Below? && Short(n.hashes)
    case KongPluginBinding => n.Below? && Short(n.hashes)
    case KongPlugin => n.ForFilters? || (n.Below? && Short(n.hashes) && n.suffix == TERMINATION)
    case KongSNI => false
  }

  predicate StartsWith(s: string, p: string) {
    |p| <= |s| && s[..|p|] == p
  }

  lemma {:induction false} JoinLength(parts: seq<string>)
    requires forall e :: e in parts ==> |e| <= 24
    ensures |Join(parts, '.')| <= |parts| * 25
  {
    if parts != [] {
      assert parts[0] in parts;
      if |parts| > 1 {
        assert forall e :: e in parts[1..] ==> e in parts;
        JoinLength(parts[1..]);
      }
    }
  }

  lemma {:induction false} TrimRightKeeps(s: string, p: string)
    requires StartsWith(s, p) && p != "" && p[|p| - 1] !in {'.', '-'}
    ensures StartsWith(TrimRight(s), p)
    ensures StartsWith(s, p + ".") ==> TrimRight(s) == p || StartsWith(TrimRight(s), p + ".")
  {
    if s[|s| - 1] in {'.', '-'} {
      var t := s[..|s| - 1];
      assert s[..|p|][|p| - 1] == s[|p| - 1];
      assert t[..|p|] == s[..|p|];
      if StartsWith(s, p + ".") {
        if |s| == |p| + 1 {
          assert t == p;
        } else {
          assert t[..|p| + 1] == s[..|p| + 1];
        }
      }
      TrimRightKeeps(t, p);
    }
  }

  /** Appending after a dot keeps the first part in front. */
  lemma {:induction false} DotKeeps(r: string, p: string, t: string)
    requires r == p || StartsWith(r, p + ".")
    ensures StartsWith(r + "." + t, p + ".")
  {
    if r != p {
      assert (r + "." + t)[..|p| + 1] == r[..|p| + 1];
    }
  }

  lemma {:induction false} CutKeeps(s: string, p: string, n: nat)
    requires (s == p || StartsWith(s, p + ".")) && |p| < n < |s| && p != "" && p[|p| - 1] !in {'.', '-'}
    ensures var r := TrimRight(s[..n]); r == p || StartsWith(r, p + ".")
  {
    var cut := s[..n];
    assert cut[..|p| + 1] == s[..|p| + 1] == p + ".";
    assert cut[..|p|] == cut[..|p| + 1][..|p|] == p;
    TrimRightKeeps(cut, p);
  }

  /** A name made with hashes is never hashed itself: it keeps the protocol of the Route in front. */
  lemma {:induction false} PrefixSurvives(h: Hashing, kind: RouteKind, readable: seq<string>, hashes: seq<string>)
    requires Short(hashes)
    ensures StartsWith(NewNameWithHashSuffix(h, [ProtocolPrefix(kind)] + readable, hashes), ProtocolPrefix(kind) + ".")
  {
    var p := ProtocolPrefix(kind);
    var all := [p] + readable;
    var hashPart, readablePart := Join(hashes, '.'), Join(all, '.');
    JoinLength(hashes);
    assert p[|p| - 1] !in {'.', '-'} && |p| <= 4;
    assert readablePart == p || StartsWith(readablePart, p + ".") by {
      if readable != [] {
        JoinConcat([p], readable, '.');
        DotKeeps(p, p, Join(readable, '.'));
      }
    }
    JoinConcat(all, hashes, '.');
    hide Join, TrimRight, StartsWith;
    DotKeeps(readablePart, p, hashPart);
    var remaining := MAX_LEN - |hashPart| - 1;
    if |readablePart| > remaining {
      CutKeeps(readablePart, p, remaining);
      DotKeeps(TrimRight(readablePart[..remaining]), p, hashPart);
    }
  }

  lemma {:induction false} PrefixesDiffer(a: RouteKind, b: RouteKind, s: string)
    requires StartsWith(s, ProtocolPrefix(a) + ".") && StartsWith(s, ProtocolPrefix(b) + ".")
    ensures a == b
  {
    var p, q := ProtocolPrefix(a) + ".", ProtocolPrefix(b) + ".";
    assert s[..|p|][0] == s[0] == s[..|q|][0];
    assert s[..|p|][1] == s[1] == s[..|q|][1];
  }

  /** What a joined or hashed name looks like. */
  lemma {:induction false} NewNameShape(h: Hashing, elements: seq<string>)
    requires NoCollisions(h) && |elements| > 1
    ensures var name := NewName(h, elements);
      (name == Join(elements, '.') && '.' in name) || (name == "ngn" + h.ofNames(elements) && '.' !in name)
  {
    assert Join(elements, '.')[|elements[0]|] == '.';
    assert IsHex(h.ofNames(elements));
  }

  lemma {:induction false} HashedNamesDiffer(h: Hashing, a: seq<string>, b: seq<string>)
    requires NoCollisions(h) && "ngn" + h.ofNames(a) == "ngn" + h.ofNames(b)
    ensures a == b
  {
    assert ("ngn" + h.ofNames(a))[3..] == h.ofNames(a) && ("ngn" + h.ofNames(b))[3..] == h.ofNames(b);
  }

  lemma {:induction false} LastPart(x: string, y: string, u: string, v: string)
    requires x + "." + y == u + "." + v && '.' !in y && '.' !in v
    ensures y == v && x == u
  {
    SplitConcat(x, y, '.');
    SplitConcat(u, v, '.');
    SplitFree(y, '.');
    SplitFree(v, '.');
    assert x + ['.'] + y == x + "." + y && u + ['.'] + v == u + "." + v;
    var s := Split(x + "." + y, '.');
    assert s[|s| - 1] == y && s[|s| - 1] == v;
    assert x == (x + "." + y)[..|x|] && u == (u + "." + v)[..|u|];
  }

  /** A name below another one: in front stands the protocol, unless both parts had to be hashed. */
  lemma {:induction false} BelowShape(h: Hashing, kind: RouteKind, n: Named)
    requires NoCollisions(h) && n.Below? && Short(n.hashes)
    ensures var name, parent := NameOf(h, kind, n),
        NewNameWithHashSuffix(h, [ProtocolPrefix(kind)] + n.readable, n.hashes);
      (StartsWith(name, ProtocolPrefix(kind) + ".") && name == parent + "." + n.suffix)
      || (name == "ngn" + h.ofNames([parent, n.suffix]) && '.' !in name)
  {
    var parent := NewNameWithHashSuffix(h, [ProtocolPrefix(kind)] + n.readable, n.hashes);
    PrefixSurvives(h, kind, n.readable, n.hashes);
    NewNameShape(h, [parent, n.suffix]);
    assert Join([parent, n.suffix], '.') == parent + "." + n.suffix;
    hide NewNameWithHashSuffix;
    DotKeepsFront(parent, ProtocolPrefix(kind) + ".", n.suffix);
  }

  lemma {:induction false} DotKeepsFront(s: string, p: string, t: string)
    requires StartsWith(s, p)
    ensures StartsWith(s + "." + t, p)
  {
    assert (s + "." + t)[..|p|] == s[..|p|];
  }

  lemma {:induction false} BelowNamesDiffer(h: Hashing, a: RouteKind, m: Named, b: RouteKind, n: Named)
    requires NoCollisions(h) && m.Below? && n.Below? && Short(m.hashes) && Short(n.hashes) && a != b
    ensures NameOf(h, a, m) != NameOf(h, b, n)
  {
    BelowShape(h, a, m);
    BelowShape(h, b, n);
    PrefixSurvives(h, a, m.readable, m.hashes);
    PrefixSurvives(h, b, n.readable, n.hashes);
    var x, y := NameOf(h, a, m), NameOf(h, b, n);
    var p, q := NewNameWithHashSuffix(h, [ProtocolPrefix(a)] + m.readable, m.hashes),
        NewNameWithHashSuffix(h, [ProtocolPrefix(b)] + n.readable, n.hashes);
    hide NameOf, NewNameWithHashSuffix, NoCollisions, StartsWith;
    if x == y {
      DottedStart(x, a);
      DottedStart(x, b);
      if '.' in x {
        PrefixesDiffer(a, b, x);
      } else {
        HashedNamesDiffer(h, [p, m.suffix], [q, n.suffix]);
        assert [p, m.suffix][0] == [q, n.suffix][0];
        PrefixesDiffer(a, b, p);
      }
    }
  }

  lemma {:induction false} DottedStart(s: string, kind: RouteKind)
    ensures StartsWith(s, ProtocolPrefix(kind) + ".") ==> '.' in s
  {
    var p := ProtocolPrefix(kind) + ".";
    if StartsWith(s, p) {
      assert s[..|p|][|p| - 1] == s[|p| - 1] == '.';
    }
  }

  /** A plugin for filters, whose name ends in the hash of filters of one kind of Route. */
  lemma {:induction false} FiltersShape(h: Hashing, kind: RouteKind, n: Named)
    requires NoCollisions(h) && n.ForFilters?
    ensures var name, hash := NameOf(h, kind, n), h.ofFilters(Filters(kind, n.merged, n.text));
      && IsHex(hash)
      && ((name == (n.namespace + "." + n.plugin) + "." + hash && '.' in name)
          || (name == "ngn" + h.ofNames([n.namespace, n.plugin, hash]) && '.' !in name))
  {
    var hash := h.ofFilters(Filters(kind, n.merged, n.text));
    var parts := [n.namespace, n.plugin, hash];
    NewNameShape(h, parts);
    assert parts[1..] == [n.plugin, hash] && [n.plugin, hash][1..] == [hash];
    assert Join([n.plugin, hash], '.') == n.plugin + "." + hash;
    assert Join(parts, '.') == n.namespace + "." + (n.plugin + "." + hash);
  }

  lemma {:induction false} FilterNamesDiffer(h: Hashing, a: RouteKind, m: Named, b: RouteKind, n: Named)
    requires NoCollisions(h) && m.ForFilters? && n.ForFilters? && a != b
    ensures NameOf(h, a, m) != NameOf(h, b, n)
  {
    FiltersShape(h, a, m);
    FiltersShape(h, b, n);
    var f, g := Filters(a, m.merged, m.text), Filters(b, n.merged, n.text);
    assert h.ofFilters(f) != h.ofFilters(g);
    if NameOf(h, a, m) == NameOf(h, b, n) {
      if '.' in NameOf(h, a, m) {
        LastPart(m.namespace + "." + m.plugin, h.ofFilters(f), n.namespace + "." + n.plugin, h.ofFilters(g));
      } else {
        HashedNamesDiffer(h, [m.namespace, m.plugin, h.ofFilters(f)], [n.namespace, n.plugin, h.ofFilters(g)]);
      }
    }
  }

  lemma {:induction false} NotHex()
    ensures !IsHex(TERMINATION) && '.' !in TERMINATION
  {
    assert TERMINATION[0] in TERMINATION;
  }

  /** A plugin that terminates requests is not a plugin for filters. */
  lemma {:induction false} TerminationIsNoFilter(h: Hashing, a: RouteKind, m: Named, b: RouteKind, n: Named)
    requires NoCollisions(h) && m.Below? && Short(m.hashes) && m.suffix == TERMINATION && n.ForFilters?
    ensures NameOf(h, a, m) != NameOf(h, b, n)
  {
    BelowShape(h, a, m);
    FiltersShape(h, b, n);
    DottedStart(NameOf(h, a, m), a);
    var parent := NewNameWithHashSuffix(h, [ProtocolPrefix(a)] + m.readable, m.hashes);
    var hash := h.ofFilters(Filters(b, n.merged, n.text));
    NotHex();
    hide NewNameWithHashSuffix, StartsWith, NameOf, NoCollisions, IsHex, Short;
    if NameOf(h, a, m) == NameOf(h, b, n) {
      if '.' in NameOf(h, a, m) {
        LastPart(parent, TERMINATION, n.namespace + "." + n.plugin, hash);
      } else {
        HashedNamesDiffer(h, [parent, TERMINATION], [n.namespace, n.plugin, hash]);
      }
    }
  }

  /** No object of any kind is generated by Routes of two kinds. */
  lemma {:induction false} KindsShareNoName(h: Hashing, kind: Kind, a: RouteKind, m: Named, b: RouteKind, n: Named)
    requires NoCollisions(h) && NamedAs(kind, m) && NamedAs(kind, n) && a != b
    ensures NameOf(h, a, m) != NameOf(h, b, n)
  {
    if m.Prefixed? {
      PrefixSurvives(h, a, m.readable, m.hashes);
      PrefixSurvives(h, b, n.readable, n.hashes);
      hide NewNameWithHashSuffix, StartsWith;
      if NameOf(h, a, m) == NameOf(h, b, n) {
        PrefixesDiffer(a, b, NameOf(h, a, m));
      }
    } else if m.Below? && n.Below? {
      BelowNamesDiffer(h, a, m, b, n);
    } else if m.ForFilters? && n.ForFilters? {
      FilterNamesDiffer(h, a, m, b, n);
    } else if m.Below? {
      TerminationIsNoFilter(h, a, m, b, n);
    } else {
      TerminationIsNoFilter(h, b, n, a, m);
    }
  }

  // ---------------------------------------------------------------- names of one kind of Route

  lemma {:induction false} TrimRightShrinks(s: string)
    ensures |TrimRight(s)| <= |s|
  {
    if s != "" && s[|s| - 1] in {'.', '-'} {
      TrimRightShrinks(s[..|s| - 1]);
    }
  }

  /** Whatever is cut off a name to make it fit, its hashes stay, and it fits. */
  lemma {:induction false} HashesSurvive(h: Hashing, readable: seq<string>, hashes: seq<string>)
    returns (front: string)
    requires readable != [] && Short(hashes)
    ensures var name := NewNameWithHashSuffix(h, readable, hashes);
      name == front + "." + Join(hashes, '.') && |name| <= 253
  {
    JoinLength(hashes);
    JoinConcat(readable, hashes, '.');
    hide Join, TrimRight;
    var hashPart, readablePart := Join(hashes, '.'), Join(readable, '.');
    var remaining := MAX_LEN - |hashPart| - 1;
    if |Join(readable + hashes, '.')| <= MAX_LEN || |readablePart| <= remaining {
      front := readablePart;
    } else {
      front := TrimRight(readablePart[..remaining]);
      TrimRightShrinks(readablePart[..remaining]);
    }
  }

  lemma {:induction false} SameTails<T>(a: seq<T>, b: seq<T>, x: seq<T>, y: seq<T>)
    requires a + x == b + y && |x| == |y|
    ensures x == y
  {
    assert x == (a + x)[|a + x| - |x|..];
    assert y == (b + y)[|b + y| - |y|..];
  }

  /** So names that came out the same were made with the same hashes, however long the readable parts are:
      what tells upstreams, services and routes apart is never cut off. */
  lemma {:induction false} SameNameSameHashes(h: Hashing, a: RouteKind, m: Named, b: RouteKind, n: Named)
    requires m.Prefixed? && n.Prefixed? && Short(m.hashes) && Short(n.hashes) && |m.hashes| == |n.hashes|
    requires forall e :: e in m.hashes + n.hashes ==> '.' !in e
    requires NameOf(h, a, m) == NameOf(h, b, n)
    ensures m.hashes == n.hashes && |NameOf(h, a, m)| <= 253
  {
    var p := HashesSurvive(h, [ProtocolPrefix(a)] + m.readable, m.hashes);
    var q := HashesSurvive(h, [ProtocolPrefix(b)] + n.readable, n.hashes);
    hide NewNameWithHashSuffix, Join, Short;
    HashesSplit(p, m.hashes);
    HashesSplit(q, n.hashes);
    SameTails(Split(p, '.'), Split(q, '.'), m.hashes, n.hashes);
  }

  lemma {:induction false} HashesSplit(front: string, hashes: seq<string>)
    requires hashes != [] && forall e :: e in hashes ==> '.' !in e
    ensures Split(front + "." + Join(hashes, '.'), '.') == Split(front, '.') + hashes
  {
    SplitConcat(front, Join(hashes, '.'), '.');
    SplitJoin(hashes, '.');
    assert front + ['.'] + Join(hashes, '.') == front + "." + Join(hashes, '.');
  }
}
