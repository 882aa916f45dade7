/**
 End to end: the environment a Gateway's listeners produce, read back the way Kong and the
 NetworkPolicy generator read it, says exactly what was allocated.
 */
module StreamAgreement {
  import opened Wrappers
  import opened Strings
  import opened HostPorts
  import opened ListenStrings
  import opened PortAllocation
  import opened PortSafety
  import opened StreamListen

  // ---------------------------------------------------------------- sorting has one result

  lemma {:induction false} HasNoneOrSome(a: seq<int>)
    ensures a == [] || exists x :: x in a
  {
    if a != [] {
      var x := a[0];
      assert x in a;
    }
  }

  lemma {:induction false} AscendingUnique(a: seq<int>, b: seq<int>)
    requires Ascending(a) && Ascending(b) && forall k :: k in a <==> k in b
    ensures a == b
  {
    if a == [] || b == [] {
      HasNoneOrSome(a);
      HasNoneOrSome(b);
    } else {
      var x, y := a[|a| - 1], b[|b| - 1];
      assert a[|a| - 1] in b && b[|b| - 1] in a;
      assert x == y;
      var a', b' := a[..|a| - 1], b[..|b| - 1];
      forall k ensures k in a' <==> k in b' {
        assert k in a' ==> k in a && k < x;
        assert k in b' ==> k in b && k < x;
        assert k in a && k != x ==> k in a';
        assert k in b && k != x ==> k in b';
      }
      AscendingUnique(a', b');
    }
  }

  lemma {:induction false} SameElements<T>(a: seq<T>, b: seq<T>)
    requires multiset(a) == multiset(b)
    ensures |a| == |b| && forall x :: x in a <==> x in b
  {
    assert |multiset(a)| == |a| && |multiset(b)| == |b|;
    forall x ensures x in a <==> x in b {
      assert x in a <==> x in multiset(a);
      assert x in b <==> x in multiset(b);
    }
  }

  lemma {:induction false} InitOf<T>(a: seq<T>)
    requires a != []
    ensures multiset(a[..|a| - 1]) == multiset(a) - multiset{a[|a| - 1]}
  {
    var init, last := a[..|a| - 1], a[|a| - 1];
    assert a == init + [last];
    assert multiset(init + [last]) == multiset(init) + multiset{last};
  }

  lemma {:induction false} WithoutLast<T>(a: seq<T>, b: seq<T>)
    requires |a| == |b| > 0 && a[|a| - 1] == b[|b| - 1] && multiset(a) == multiset(b)
    ensures multiset(a[..|a| - 1]) == multiset(b[..|b| - 1])
  {
    InitOf(a);
    InitOf(b);
  }

  /** When no two ports are equal there is only one way to sort them. */
  lemma {:induction false} SortUnique(a: seq<StreamPort>, b: seq<StreamPort>)
    requires SortedByPort(a) && SortedByPort(b) && multiset(a) == multiset(b) && Distinct(a) && Distinct(b)
    ensures a == b
  {
    SameElements(a, b);
    if a != [] {
      var n := |a| - 1;
      assert a[n] in b && b[n] in a;
      assert a[n] == b[n];
      WithoutLast(a, b);
      SortUnique(a[..n], b[..n]);
    }
  }

  lemma {:induction false} DistinctAfterSort(sorted: seq<StreamPort>, ports: seq<StreamPort>)
    requires multiset(sorted) == multiset(ports) && Distinct(ports)
    ensures Distinct(sorted)
  {
    SameElements(sorted, ports);
    forall j, k | 0 <= j < k < |sorted| ensures sorted[j].kongPort != sorted[k].kongPort {
      if sorted[j].kongPort == sorted[k].kongPort {
        assert sorted[j] in ports && sorted[k] in ports;
        assert sorted[j] == sorted[k];
        assert sorted == sorted[..k] + [sorted[k]] + sorted[k + 1..];
        assert sorted[j] in sorted[..k];
        TwiceInDistinct(ports, sorted[j]);
      }
    }
  }

  lemma {:induction false} TwiceInDistinct(ports: seq<StreamPort>, x: StreamPort)
    requires Distinct(ports)
    ensures multiset(ports)[x] <= 1
  {
    if ports != [] {
      var n := |ports| - 1;
      TwiceInDistinct(ports[..n], x);
      assert ports == ports[..n] + [ports[n]];
      assert ports[n] !in ports[..n];
    }
  }

  /** The environment is a function of the previous one and of the listeners: neither the order in
      which a map is walked nor the stability of the sort shows. */
  lemma {:induction false} ConfiguredIsUnique(before: Env, ls: seq<Listener>, one: Env, two: Env)
    requires Succeeds(ls) && Configured(before, ls, one) && Configured(before, ls, two)
    ensures one == two
  {
    StreamPortsAreDistinctAndUsable(ls);
    var a := Allocate(ls);
    var sorted1, keys1 :| IsSortOf(sorted1, a.streams) && ListsKeys(keys1, a.kongPorts)
      && one == WithListenPorts(before, sorted1, keys1, a.kongPorts);
    var sorted2, keys2 :| IsSortOf(sorted2, a.streams) && ListsKeys(keys2, a.kongPorts)
      && two == WithListenPorts(before, sorted2, keys2, a.kongPorts);
    DistinctAfterSort(sorted1, a.streams);
    DistinctAfterSort(sorted2, a.streams);
    SortUnique(sorted1, sorted2);
    AscendingUnique(keys1, keys2);
  }

  // ---------------------------------------------------------------- parsing what was rendered

  function PortEndpoints(port: int, ts: seq<Template>): seq<Endpoint> {
    if ts == [] then []
        else PortEndpoints(port, ts[..|ts| - 1]) + [Endpoint(ts[|ts| - 1].address, port, ts[|ts| - 1].options)]
  }

  /** The ports of one bucket, each with every template. */
  function Expected(ports: seq<StreamPort>, ts: seq<Template>, b: Bucket): seq<Endpoint> {
    if ports == [] then []
    else
      var sp := ports[|ports| - 1];
      Expected(ports[..|ports| - 1], ts, b) + if BucketFor(sp.protocol) == b then PortEndpoints(sp.kongPort, ts) else []
  }

  predicate AllPlain(ts: seq<Template>) {
    forall t :: t in ts ==> PlainTemplate(t)
  }

  predicate AllFit(ports: seq<StreamPort>) {
    forall k :: 0 <= k < |ports| ==> 0 <= ports[k].kongPort <= MAX_INT
  }

  lemma {:induction false} InBucketLast(es: seq<Option<Entry>>, e: Option<Entry>, b: Bucket)
    ensures InBucket(es + [e], b) == InBucket(es, b) + OfBucket(e, b)
  {
    assert (es + [e])[..|es|] == es;
    hide OfBucket;
  }

  lemma {:induction false} InBucketConcat(a: seq<Option<Entry>>, c: seq<Option<Entry>>, b: Bucket)
    ensures InBucket(a + c, b) == InBucket(a, b) + InBucket(c, b)
    decreases |c|
  {
    if c == [] {
      assert a + c == a;
    } else {
      hide InBucket, OfBucket;
      var init, last := c[..|c| - 1], c[|c| - 1];
      InBucketConcat(a, init, b);
      InBucketLast(a + init, last, b);
      InBucketLast(init, last, b);
      Regroup(a, init, [last]);
      Regroup(InBucket(a, b), InBucket(init, b), OfBucket(last, b));
      assert c == init + [last];
    }
  }

  lemma {:induction false} ParseEachLast(parts: seq<string>, p: string)
    ensures ParseEach(parts + [p]) == ParseEach(parts) + [ParseEntry(p)]
  {
    assert (parts + [p])[..|parts|] == parts;
    hide ParseEntry;
  }

  lemma {:induction false} ParseEachConcat(a: seq<string>, c: seq<string>)
    ensures ParseEach(a + c) == ParseEach(a) + ParseEach(c)
    decreases |c|
  {
    if c == [] {
      assert a + c == a;
    } else {
      hide ParseEach, ParseEntry;
      var init, last := c[..|c| - 1], c[|c| - 1];
      ParseEachConcat(a, init);
      ParseEachLast(a + init, last);
      ParseEachLast(init, last);
      Regroup(a, init, [last]);
      Regroup(ParseEach(a), ParseEach(init), [ParseEntry(last)]);
      assert c == init + [last];
    }
  }

  /** The parsed form of the entries of one port. */
  function PortEntries(sp: StreamPort, ts: seq<Template>): seq<Option<Entry>> {
    if ts == [] then []
    else
      var t := ts[|ts| - 1];
      PortEntries(sp, ts[..|ts| - 1]) + [Some(Entry(BucketFor(sp.protocol),
          Endpoint(t.address, sp.kongPort, t.options)))]
  }

  lemma {:induction false} PortEntriesInBucket(sp: StreamPort, ts: seq<Template>, b: Bucket)
    ensures AllSome(PortEntries(sp, ts))
    ensures InBucket(PortEntries(sp, ts), b) == if BucketFor(sp.protocol) == b then PortEndpoints(sp.kongPort, ts)
        else []
  {
    if ts != [] {
      PortEntriesInBucket(sp, ts[..|ts| - 1], b);
      var es := PortEntries(sp, ts);
      assert es[..|es| - 1] == PortEntries(sp, ts[..|ts| - 1]);
    }
  }

  lemma {:induction false} ParsePort(sp: StreamPort, ts: seq<Template>)
    requires AllPlain(ts) && 0 <= sp.kongPort <= MAX_INT
    ensures ParseEach(RenderPort(sp, ts)) == PortEntries(sp, ts)
  {
    hide ParseEntry, RenderEntry;
    if ts != [] {
      var n := |ts| - 1;
      ParsePort(sp, ts[..n]);
      ParseRendered(ts[n], sp.kongPort, Tokens(sp.protocol), BucketFor(sp.protocol));
      var entries := RenderPort(sp, ts);
      assert entries[..|entries| - 1] == RenderPort(sp, ts[..n]);
    }
  }

  lemma {:induction false} ParseAll(ports: seq<StreamPort>, ts: seq<Template>, b: Bucket)
    requires AllPlain(ts) && AllFit(ports)
    ensures var es := ParseEach(RenderAll(ports, ts));
      AllSome(es) && InBucket(es, b) == Expected(ports, ts, b)
  {
    hide ParseEntry, RenderEntry;
    if ports != [] {
      var n := |ports| - 1;
      ParseAll(ports[..n], ts, b);
      ParsePort(ports[n], ts);
      ParseEachConcat(RenderAll(ports[..n], ts), RenderPort(ports[n], ts));
      PortEntriesInBucket(ports[n], ts, b);
      InBucketConcat(ParseEach(RenderAll(ports[..n], ts)), PortEntries(ports[n], ts), b);
    }
  }

  lemma {:induction false} RenderedPortPlain(sp: StreamPort, ts: seq<Template>)
    requires AllPlain(ts)
    ensures |RenderPort(sp, ts)| == |ts| && forall e :: e in RenderPort(sp, ts) ==> ',' !in e
  {
    if ts != [] {
      RenderedPortPlain(sp, ts[..|ts| - 1]);
      RenderedCommaFree(ts[|ts| - 1], sp.kongPort, Tokens(sp.protocol), BucketFor(sp.protocol));
    }
  }

  lemma {:induction false} RenderedAllPlain(ports: seq<StreamPort>, ts: seq<Template>)
    requires AllPlain(ts)
    ensures (ports != [] && ts != [] ==> RenderAll(ports, ts) != []) && forall e ::
        e in RenderAll(ports, ts) ==> ',' !in e
  {
    if ports != [] {
      RenderedAllPlain(ports[..|ports| - 1], ts);
      RenderedPortPlain(ports[|ports| - 1], ts);
    }
  }

  /** Parsing the rendered KONG_STREAM_LISTEN gives back every stream port with every template,
      each in the bucket of its protocol, in order, and nothing else. */
  lemma {:induction false} StreamListenRoundTrip(ports: seq<StreamPort>, ts: seq<Template>)
    requires ports != [] && ts != [] && AllPlain(ts) && AllFit(ports)
    ensures ParseListen(Join(RenderAll(ports, ts), ',')) ==
      Some(ListenConfig(Expected(ports, ts, Plain), Expected(ports, ts, Ssl), Expected(ports, ts, Udp)))
  {
    RenderedAllPlain(ports, ts);
    SplitJoin(RenderAll(ports, ts), ',');
    ParseAll(ports, ts, Plain);
    ParseAll(ports, ts, Ssl);
    ParseAll(ports, ts, Udp);
  }

  lemma {:induction false} TemplatesOfPlain(es: seq<Endpoint>)
    requires forall e :: e in es ==> PlainTemplate(Template(e.address, e.options))
    ensures AllPlain(TemplatesOf(es))
  {
    if es != [] {
      var n := |es| - 1;
      assert es[n] in es;
      TemplatesOfPlain(es[..n]);
    }
  }

  lemma {:induction false} DefaultTemplateIsPlain()
    ensures AllPlain(DEFAULT_TEMPLATES)
  {
    assert PlainOption("reuseport");
  }

  /** Whatever value the user configured before, the templates taken from it render faithfully. */
  lemma {:induction false} TemplatesArePlain(env: Env)
    ensures AllPlain(Templates(env))
  {
    var value := EnvValue(env, STREAM_LISTEN);
    DefaultTemplateIsPlain();
    if value != "" && ParseListen(value).Some? {
      ParsedEndpointsArePlain(value);
      TemplatesOfPlain(ParseListen(value).value.sslEndpoints);
    }
  }

  // ---------------------------------------------------------------- bounds of the allocated ports

  lemma {:induction false} KongPortsFit(ls: seq<Listener>)
    ensures AllFit(Allocate(ls).streams)
    ensures forall p :: p in Allocate(ls).kongPorts ==> 0 <= Allocate(ls).kongPorts[p] <= MAX_INT
  {
    if ls != [] {
      KongPortsFit(ls[..|ls| - 1]);
      AllocateInv(ls[..|ls| - 1]);
    }
  }

  // ---------------------------------------------------------------- NetworkPolicy

  predicate Carries(r: Rule, t: Transport, port: int) {
    r.transport == t && port in r.ports
  }

  predicate Opens(rules: seq<Rule>, t: Transport, port: int) {
    exists r :: r in rules && Carries(r, t, port)
  }

  /** Some stream port of bucket `b` has this Kong port. */
  predicate Allocated(ports: seq<StreamPort>, b: Bucket, port: int) {
    exists s :: s in ports && BucketFor(s.protocol) == b && s.kongPort == port
  }

  lemma {:induction false} PortsOfEndpoints(port: int, ts: seq<Template>, p: int)
    ensures p in PortsOf(PortEndpoints(port, ts)) <==> p == port && ts != []
  {
    if ts != [] {
      var n := |ts| - 1;
      PortsOfEndpoints(port, ts[..n], p);
      var es := PortEndpoints(port, ts);
      assert es[..|es| - 1] == PortEndpoints(port, ts[..n]);
    }
  }

  lemma {:induction false} PortsConcat(a: seq<Endpoint>, b: seq<Endpoint>)
    ensures PortsOf(a + b) == PortsOf(a) + PortsOf(b)
    decreases |b|
  {
    if b == [] {
      assert a + b == a;
    } else {
      assert (a + b)[..|a + b| - 1] == a + b[..|b| - 1];
      PortsConcat(a, b[..|b| - 1]);
    }
  }

  lemma {:induction false} AllocatedLast(ports: seq<StreamPort>, sp: StreamPort, b: Bucket, p: int)
    ensures Allocated(ports + [sp], b, p) <==>
          Allocated(ports, b, p) || (sp.kongPort == p && BucketFor(sp.protocol) == b)
  {
    assert forall s :: s in ports + [sp] <==> s in ports || s == sp;
  }

  lemma {:induction false} ExpectedLast(ports: seq<StreamPort>, sp: StreamPort, ts: seq<Template>, b: Bucket)
    ensures Expected(ports + [sp], ts, b) ==
      Expected(ports, ts, b) + if BucketFor(sp.protocol) == b then PortEndpoints(sp.kongPort, ts) else []
  {
    assert (ports + [sp])[..|ports|] == ports;
    hide PortEndpoints;
  }

  lemma {:induction false} ExpectedPorts(ports: seq<StreamPort>, ts: seq<Template>, b: Bucket, p: int)
    requires ts != []
    ensures p in PortsOf(Expected(ports, ts, b)) <==> Allocated(ports, b, p)
  {
    hide Expected, PortEndpoints, PortsOf, Allocated, BucketFor;
    NoPorts(ts, b, p);
    if ports != [] {
      var init, sp := ports[..|ports| - 1], ports[|ports| - 1];
      var last := if BucketFor(sp.protocol) == b then PortEndpoints(sp.kongPort, ts) else [];
      ExpectedPorts(init, ts, b, p);
      assert ports == init + [sp];
      ExpectedLast(init, sp, ts, b);
      AllocatedLast(init, sp, b, p);
      PortsConcat(Expected(init, ts, b), last);
      PortsOfEndpoints(sp.kongPort, ts, p);
    }
  }

  lemma {:induction false} NoPorts(ts: seq<Template>, b: Bucket, p: int)
    ensures PortsOf([]) == [] && Expected([], ts, b) == [] && !Allocated([], b, p)
  {
  }

  lemma {:induction false} RulesOpen(c: ListenConfig, port: int)
    ensures Opens(RulesFor(c), OverTCP, port) <==> port in PortsOf(c.endpoints) || port in PortsOf(c.sslEndpoints)
    ensures Opens(RulesFor(c), OverUDP, port) <==> port in PortsOf(c.udpEndpoints)
    ensures forall r :: r in RulesFor(c) ==> r.ports != []
  {
    hide PortsOf;
    var tcp := PortsOf(c.endpoints) + PortsOf(c.sslEndpoints);
    var udp := PortsOf(c.udpEndpoints);
    assert port in tcp ==> Rule(OverTCP, tcp) in RulesFor(c) && Carries(Rule(OverTCP, tcp), OverTCP, port);
    assert port in udp ==> Rule(OverUDP, udp) in RulesFor(c) && Carries(Rule(OverUDP, udp), OverUDP, port);
  }

  /** The stream rules the NetworkPolicy generator adds for an environment; None is an error. */
  function PolicyOf(env: Env): Option<seq<Rule>> {
    var value := EnvValue(env, STREAM_LISTEN);
    if value == "" then Some([]) else RulesOf(ParseListen(value))
  }

  /** The value read back from a configured environment. */
  lemma {:induction false} ConfiguredValue(before: Env, ls: seq<Listener>, after: Env) returns (sorted: seq<StreamPort>)
    requires Succeeds(ls) && Configured(before, ls, after) && Allocate(ls).streams != []
    ensures IsSortOf(sorted, Allocate(ls).streams) && sorted != []
    ensures EnvValue(after, STREAM_LISTEN) == Join(RenderAll(sorted, Templates(before)), ',')
  {
    var a := Allocate(ls);
    var s, keys :| IsSortOf(s, a.streams) && ListsKeys(keys, a.kongPorts)
        && after == WithListenPorts(before, s, keys, a.kongPorts);
    sorted := s;
    SameElements(sorted, a.streams);
    NamesDiffer();
  }

  lemma {:induction false} NamesDiffer()
    ensures STREAM_LISTEN != PORT_MAPS
  {
    assert STREAM_LISTEN[5] == 'S' && PORT_MAPS[5] == 'P';
  }

  /** With at least one stream listener the stream rules of the NetworkPolicy open exactly the
      ports allocated to TLS and TCP listeners over TCP, and those of UDP listeners over UDP; no rule
      has an empty port list, which would open every port. */
  lemma {:induction false} PolicyOpensExactlyTheAllocated(before: Env, ls: seq<Listener>, after: Env, port: int)
    requires Succeeds(ls) && Configured(before, ls, after) && Allocate(ls).streams != []
    ensures PolicyOf(after).Some?
    ensures var rules := PolicyOf(after).value;
      && (Opens(rules, OverTCP, port) <==>
            Allocated(Allocate(ls).streams, Ssl, port) || Allocated(Allocate(ls).streams, Plain, port))
      && (Opens(rules, OverUDP, port) <==> Allocated(Allocate(ls).streams, Udp, port))
      && forall r :: r in rules ==> r.ports != []
  {
    var sorted := ConfiguredValue(before, ls, after);
    var ts := Templates(before);
    TemplatesArePlain(before);
    FitAfterSort(sorted, ls);
    StreamListenRoundTrip(sorted, ts);
    var c := ListenConfig(Expected(sorted, ts, Plain), Expected(sorted, ts, Ssl), Expected(sorted, ts, Udp));
    ExpectedPorts(sorted, ts, Plain, port);
    ExpectedPorts(sorted, ts, Ssl, port);
    ExpectedPorts(sorted, ts, Udp, port);
    AllocatedAfterSort(sorted, Allocate(ls).streams, Plain, port);
    AllocatedAfterSort(sorted, Allocate(ls).streams, Ssl, port);
    AllocatedAfterSort(sorted, Allocate(ls).streams, Udp, port);
    RulesOpen(c, port);
    RenderedValueNotEmpty(sorted, ts);
  }

  lemma {:induction false} FitAfterSort(sorted: seq<StreamPort>, ls: seq<Listener>)
    requires IsSortOf(sorted, Allocate(ls).streams)
    ensures AllFit(sorted)
  {
    KongPortsFit(ls);
    SameElements(sorted, Allocate(ls).streams);
    forall k | 0 <= k < |sorted| ensures 0 <= sorted[k].kongPort <= MAX_INT {
      assert sorted[k] in Allocate(ls).streams;
    }
  }

  lemma {:induction false} AllocatedAfterSort(sorted: seq<StreamPort>, ports: seq<StreamPort>, b: Bucket, port: int)
    requires multiset(sorted) == multiset(ports)
    ensures Allocated(sorted, b, port) <==> Allocated(ports, b, port)
  {
    SameElements(sorted, ports);
  }

  lemma {:induction false} RenderedValueNotEmpty(ports: seq<StreamPort>, ts: seq<Template>)
    requires ports != [] && ts != [] && AllPlain(ts) && AllFit(ports)
    ensures Join(RenderAll(ports, ts), ',') != ""
  {
    StreamListenRoundTrip(ports, ts);
    EmptyDoesNotParse();
    hide RenderAll, Join, ParseListen, AllPlain, AllFit;
  }

  lemma {:induction false} EmptyDoesNotParse()
    ensures ParseListen("").None?
  {
    assert Split("", ',') == [""];
    assert ParseEntry("").None?;
    hide ParseEntry, Split;
    assert ParseEach([""]) == [ParseEntry("")] by {
      assert [""][..0] == [];
    }
    assert ParseEach([""])[0].None?;
  }

  // ---------------------------------------------------------------- the Service and the port map

  lemma {:induction false} MapEntriesPlain(keys: seq<int>, m: map<int, int>)
    requires forall k :: k in keys ==> k in m
    ensures forall e :: e in MapEntries(keys, m) ==> ',' !in e
  {
    if keys != [] {
      var n := |keys| - 1;
      MapEntriesPlain(keys[..n], m);
      ItoaPlain(keys[n]);
      ItoaPlain(m[keys[n]]);
    }
  }

  /** The Service sends the listener's traffic to the port Kong was given for it, and the port map says so. */
  predicate Agrees(ls: seq<Listener>, k: nat)
    requires k < |ls|
  {
    var m := Allocate(ls).kongPorts;
    TargetOf(ls[k], m) == Some(Given(ls, k)) && ls[k].port in m && m[ls[k].port] == Given(ls, k)
  }

  /** For every listener the Service, the port map and the allocation agree if and only if listeners
      that share a port are all HTTP or all HTTPS. */
  lemma {:induction false} AgreementIff(ls: seq<Listener>)
    requires Succeeds(ls)
    ensures (forall k :: 0 <= k < |ls| ==> Agrees(ls, k)) <==> SharingAllowed(ls)
  {
    NothingOverwrittenIff(ls);
    forall k | 0 <= k < |ls| ensures Agrees(ls, k) <==> Lookup(Allocate(ls).kongPorts, ls[k].port) == Given(ls, k) {
      EveryPortIsMapped(ls, k);
      GivenAtTurn(ls, k);
    }
    assert NothingOverwritten(ls) <==> forall k :: 0 <= k < |ls| ==> Agrees(ls, k);
  }

  lemma {:induction false} ConfiguredPortMaps(before: Env, ls: seq<Listener>, after: Env) returns (keys: seq<int>)
    requires Configured(before, ls, after)
    ensures ListsKeys(keys, Allocate(ls).kongPorts)
    ensures EnvValue(after, PORT_MAPS) == Join(MapEntries(keys, Allocate(ls).kongPorts), ',')
  {
    var a := Allocate(ls);
    var sorted, ks :| IsSortOf(sorted, a.streams) && ListsKeys(ks, a.kongPorts)
        && after == WithListenPorts(before, sorted, ks, a.kongPorts);
    keys := ks;
  }

  /** One entry of KONG_PORT_MAPS: two numbers with a colon between them. */
  function ParseMapEntry(entry: string): Option<(int, int)> {
    var parts := Split(entry, ':');
    if |parts| != 2 then None
    else match (Atoi(parts[0]), Atoi(parts[1])) case (Some(port),
        Some(kongPort)) => Some((port, kongPort)) case _ => None
  }

  function ParseMapEntries(entries: seq<string>): Option<map<int, int>> {
    if entries == [] then Some(map[])
    else
      match (ParseMapEntries(entries[..|entries| - 1]), ParseMapEntry(entries[|entries| - 1]))
      case (Some(m), Some(e)) => Some(m[e.0 := e.1])
      case _ => None
  }

  function ParsePortMaps(value: string): Option<map<int, int>> {
    if value == "" then Some(map[]) else ParseMapEntries(Split(value, ','))
  }

  predicate Int64(n: int) {
    -MAX_INT - 1 <= n <= MAX_INT
  }

  lemma {:induction false} MapEntryParses(port: int, kongPort: int)
    requires Int64(port) && Int64(kongPort)
    ensures ParseMapEntry(MapEntry(port, kongPort)) == Some((port, kongPort))
  {
    ItoaPlain(port);
    ItoaPlain(kongPort);
    SplitFree(Itoa(port), ':');
    SplitFree(Itoa(kongPort), ':');
    SplitConcat(Itoa(port), Itoa(kongPort), ':');
    assert Itoa(port) + [':'] + Itoa(kongPort) == MapEntry(port, kongPort);
    AtoiItoa(port);
    AtoiItoa(kongPort);
  }

  function Picked(keys: seq<int>, m: map<int, int>): map<int, int>
    requires forall k :: k in keys ==> k in m
  {
    if keys == [] then map[]
    else
      var k := keys[|keys| - 1];
      assert k in keys;
      Picked(keys[..|keys| - 1], m)[k := m[k]]
  }

  lemma {:induction false} PickedAll(keys: seq<int>, m: map<int, int>)
    requires forall k :: k in keys ==> k in m
    ensures forall k :: k in Picked(keys, m) <==> k in keys
    ensures forall k :: k in keys ==> Picked(keys, m)[k] == m[k]
  {
    if keys != [] {
      var n := |keys| - 1;
      PickedAll(keys[..n], m);
      assert forall k :: k in keys <==> k in keys[..n] || k == keys[n];
    }
  }

  lemma {:induction false} MapEntriesParse(keys: seq<int>, m: map<int, int>)
    requires forall k :: k in keys ==> k in m && Int64(k) && Int64(m[k])
    ensures ParseMapEntries(MapEntries(keys, m)) == Some(Picked(keys, m))
  {
    if keys != [] {
      var n := |keys| - 1;
      assert forall k :: k in keys[..n] ==> k in keys;
      MapEntriesParse(keys[..n], m);
      MapEntryParses(keys[n], m[keys[n]]);
      hide ParseMapEntry, MapEntry, Int64;
      var entries := MapEntries(keys, m);
      assert entries[..|entries| - 1] == MapEntries(keys[..n], m);
    }
  }

  /** Ports and Kong ports are printed and read back without overflow. */
  lemma {:induction false} PortsFit(ls: seq<Listener>)
    ensures var a := Allocate(ls);
      a.cursor <= WINDOW_END && forall p :: p in a.kongPorts ==> Int64(p) && Int64(a.kongPorts[p])
  {
    if ls != [] {
      PortsFit(ls[..|ls| - 1]);
      AllocateInv(ls[..|ls| - 1]);
    }
  }

  /** KONG_PORT_MAPS says exactly what the port map says: reading the whole value back gives the map,
      no entry more or less, whatever order the map was iterated in. */
  lemma {:induction false} PortMapsParseBack(before: Env, ls: seq<Listener>, after: Env)
    requires Configured(before, ls, after)
    ensures var parsed, m := ParsePortMaps(EnvValue(after, PORT_MAPS)), Allocate(ls).kongPorts;
      && parsed.Some? && (forall p :: p in parsed.value <==> p in m)
      && forall p :: p in m ==> parsed.value[p] == m[p]
  {
    var m := Allocate(ls).kongPorts;
    var keys := ConfiguredPortMaps(before, ls, after);
    PortsFit(ls);
    hide Allocate, Configured, EnvValue;
    RenderedParsesBack(keys, m);
  }

  lemma {:induction false} RenderedParsesBack(keys: seq<int>, m: map<int, int>)
    requires ListsKeys(keys, m) && forall p :: p in m ==> Int64(p) && Int64(m[p])
    ensures var parsed := ParsePortMaps(Join(MapEntries(keys, m), ','));
      && parsed.Some? && (forall p :: p in parsed.value <==> p in m)
      && forall p :: p in m ==> parsed.value[p] == m[p]
  {
    PickedAll(keys, m);
    hide Picked;
    MapEntriesParse(keys, m);
    hide Int64, ParseMapEntries;
    if keys != [] {
      MapEntriesPlain(keys, m);
      JoinNotEmpty(keys, m);
      MapEntryNotEmpty(keys, m);
      hide MapEntries;
      SplitJoin(MapEntries(keys, m), ',');
    }
  }

  lemma {:induction false} JoinNotEmpty(keys: seq<int>, m: map<int, int>)
    requires keys != [] && forall k :: k in keys ==> k in m
    ensures Join(MapEntries(keys, m), ',') != ""
  {
    var entries := MapEntries(keys, m);
    assert |entries| > 0;
    MapEntryNotEmpty(keys, m);
  }

  lemma {:induction false} MapEntryNotEmpty(keys: seq<int>, m: map<int, int>)
    requires keys != [] && forall k :: k in keys ==> k in m
    ensures MapEntries(keys, m) != [] && MapEntries(keys, m)[0] != ""
  {
    if |keys| > 1 {
      MapEntryNotEmpty(keys[..|keys| - 1], m);
    }
  }

  lemma {:induction false} MapEntryIn(keys: seq<int>, m: map<int, int>, e: string)
    requires forall k :: k in keys ==> k in m
    ensures e in MapEntries(keys, m) <==> exists p :: p in keys && e == Itoa(p) + ":" + Itoa(m[p])
  {
    hide Itoa;
    if keys != [] {
      var n := |keys| - 1;
      assert forall k :: k in keys[..n] ==> k in keys;
      MapEntryIn(keys[..n], m, e);
      assert forall k :: k in keys <==> k in keys[..n] || k == keys[n];
      assert MapEntry(keys[n], m[keys[n]]) == Itoa(keys[n]) + ":" + Itoa(m[keys[n]]);
    }
  }

  /** Letter by letter: the entries of KONG_PORT_MAPS are the listeners' ports, each with a colon and the Kong
      port of the map behind it. */
  lemma {:induction false} PortMapsSpelled(before: Env, ls: seq<Listener>, after: Env, e: string)
    requires Succeeds(ls) && Configured(before, ls, after) && ls != []
    ensures "KONG_PORT_MAPS" in after
    ensures e in Split(after["KONG_PORT_MAPS"], ',') <==>
      exists p :: p in Allocate(ls).kongPorts && e == Itoa(p) + ":" + Itoa(Allocate(ls).kongPorts[p])
  {
    var m := Allocate(ls).kongPorts;
    var keys := ConfiguredPortMaps(before, ls, after);
    assert "KONG_PORT_MAPS" in after;
    EveryPortIsMapped(ls, 0);
    hide Allocate, Configured, MapEntries, Itoa, Split, Join;
    assert ls[0].port in keys;
    MapEntriesPlain(keys, m);
    SomeEntry(keys, m);
    SplitJoin(MapEntries(keys, m), ',');
    MapEntryIn(keys, m, e);
  }

  lemma {:induction false} SomeEntry(keys: seq<int>, m: map<int, int>)
    requires keys != [] && forall k :: k in keys ==> k in m
    ensures MapEntries(keys, m) != []
  {
  }

  /** In the environment itself: read back, KONG_PORT_MAPS sends every listener's port to the Kong port it
      was given, which is also what its Service port targets, if and only if listeners that share a port
      are all HTTP or all HTTPS. */
  lemma {:induction false} PortMapsNameEveryTargetIff(before: Env, ls: seq<Listener>, after: Env)
    requires Succeeds(ls) && Configured(before, ls, after)
    ensures var parsed := ParsePortMaps(EnvValue(after, PORT_MAPS));
      parsed.Some? &&
      (SharingAllowed(ls) <==>
         forall k :: 0 <= k < |ls| ==>
           && ls[k].port in parsed.value && parsed.value[ls[k].port] == Given(ls, k)
           && TargetOf(ls[k], Allocate(ls).kongPorts) == Some(Given(ls, k)))
  {
    AgreementIff(ls);
    PortMapsParseBack(before, ls, after);
    var parsed := ParsePortMaps(EnvValue(after, PORT_MAPS)).value;
    forall k | 0 <= k < |ls|
      ensures Agrees(ls, k) <==>
        && ls[k].port in parsed && parsed[ls[k].port] == Given(ls, k)
        && TargetOf(ls[k], Allocate(ls).kongPorts) == Some(Given(ls, k))
    {
    }
    hide Agrees, Configured, SharingAllowed, ParsePortMaps, Given, TargetOf, Allocate;
  }

  /** The node port of a name is that of the first option with the name, 0 if there is none. */
  lemma {:induction false} NodePortOfFirst(options: seq<ListenerOptions>, name: string)
    ensures (forall o :: o in options ==> o.name != name) ==> NodePortFor(options, name) == 0
    ensures forall i ::
          0 <= i < |options| && options[i].name == name && (forall h :: 0 <= h < i ==> options[h].name != name) ==>
      NodePortFor(options, name) == options[i].nodePort
  {
    if options != [] {
      NodePortOfFirst(options[1..], name);
      forall i | 0 < i < |options| && options[i].name == name && (forall h :: 0 <= h < i ==> options[h].name != name)
        ensures NodePortFor(options, name) == options[i].nodePort
      {
        assert options[1..][i - 1] == options[i];
        assert forall h :: 0 <= h < i - 1 ==> options[1..][h] == options[h + 1];
        assert options[0].name != name;
      }
      assert forall o :: o in options[1..] ==> o in options;
      assert options[0] in options;
    }
  }

  /** After a successful allocation the Service has one port per listener, in order, on the listener's
      port, over UDP exactly for a UDP listener, sending to the listener's target. */
  lemma {:induction false} OneServicePortPerListener(ls: seq<Listener>, m: map<int, int>, options: seq<ListenerOptions>,
                                                     generated: seq<string>, k: nat)
    requires |generated| == |ls| && AllTargeted(ls, m) && k < |ls|
    ensures var ports := ServicePorts(ls, m, options, generated);
      && |ports| == |ls| && ports[k].port == ls[k].port && Some(ports[k].targetPort) == TargetOf(ls[k], m)
      && (ports[k].transport.OverUDP? <==> ls[k].protocol.UDP?)
      && ports[k].name == (if ls[k].name != "" then ls[k].name else generated[k])
      && ports[k].nodePort == NodePortFor(options, ls[k].name)
  {
    var n := |ls| - 1;
    assert TargetOf(ls[n], m).Some?;
    assert AllTargeted(ls[..n], m);
    AsManyServicePorts(ls[..n], m, options, generated[..n]);
    hide TargetOf, NodePortFor, AllTargeted;
    if k < n {
      OneServicePortPerListener(ls[..n], m, options, generated[..n], k);
    }
  }

  lemma {:induction false} AsManyServicePorts(ls: seq<Listener>, m: map<int, int>, options: seq<ListenerOptions>,
                                              generated: seq<string>)
    requires |generated| == |ls| && AllTargeted(ls, m)
    ensures |ServicePorts(ls, m, options, generated)| == |ls|
  {
    if ls != [] {
      var n := |ls| - 1;
      AsManyServicePorts(ls[..n], m, options, generated[..n]);
      assert TargetOf(ls[n], m).Some?;
    }
  }
}
