/**
 What becomes of the addresses and options the user put into KONG_STREAM_LISTEN: every stream port is
 opened on each of them.
 */
module StreamTemplates {
  import opened Wrappers
  import opened Strings
  import opened ListenStrings
  import opened PortAllocation
  import opened PortSafety
  import opened StreamListen
  import opened StreamAgreement

  /** How many of the user's endpoints have the address and the options of `x`; no address is any address. */
  function Occurrences(users: seq<Endpoint>, x: Endpoint): nat {
    if users == [] then 0
    else
      var u := users[|users| - 1];
      Occurrences(users[..|users| - 1], x)
      + if u.options == x.options && (if u.address == "" then "0.0.0.0" else u.address) == x.address then 1 else 0
  }

  predicate Carried(streams: seq<StreamPort>, p: Protocol, port: int) {
    exists s :: s in streams && s.protocol == p && s.kongPort == port
  }

  /** `es` has, for each stream port of the protocol and each endpoint of the user, one endpoint with that
      port, that address and those options; and no others. */
  ghost predicate OneEachOf(es: seq<Endpoint>, streams: seq<StreamPort>, p: Protocol, users: seq<Endpoint>) {
    forall x :: multiset(es)[x] == if Carried(streams, p, x.port) then Occurrences(users, x) else 0
  }

  lemma {:induction false} CountLast(es: seq<Endpoint>, e: Endpoint, x: Endpoint)
    ensures multiset(es + [e])[x] == multiset(es)[x] + if e == x then 1 else 0
  {
  }

  lemma {:induction false} PortCount(port: int, users: seq<Endpoint>, x: Endpoint)
    ensures multiset(PortEndpoints(port, TemplatesOf(users)))[x] == if x.port == port then Occurrences(users, x) else 0
  {
    if users != [] {
      var n := |users| - 1;
      PortCount(port, users[..n], x);
      var t := TemplateOf(users[n]);
      assert TemplatesOf(users)[..n] == TemplatesOf(users[..n]);
      CountLast(PortEndpoints(port, TemplatesOf(users[..n])), Endpoint(t.address, port, t.options), x);
    }
  }

  lemma {:induction false} CountConcat<T>(a: seq<T>, b: seq<T>, x: T)
    ensures multiset(a + b)[x] == multiset(a)[x] + multiset(b)[x]
  {
  }

  lemma {:induction false} ExpectedCount(ports: seq<StreamPort>, users: seq<Endpoint>, b: Bucket, x: Endpoint)
    requires Distinct(ports)
    ensures multiset(Expected(ports, TemplatesOf(users), b))[x] ==
      if Allocated(ports, b, x.port) then Occurrences(users, x) else 0
  {
    hide Expected, PortEndpoints, Allocated, BucketFor, Occurrences, TemplatesOf;
    var ts := TemplatesOf(users);
    NoPorts(ts, b, x.port);
    if ports != [] {
      var init, sp := ports[..|ports| - 1], ports[|ports| - 1];
      assert ports == init + [sp];
      ExpectedCount(init, users, b, x);
      ExpectedLast(init, sp, ts, b);
      AllocatedLast(init, sp, b, x.port);
      PortCount(sp.kongPort, users, x);
      LastIsNew(ports, b);
      CountConcat(Expected(init, ts, b), PortEndpoints(sp.kongPort, ts), x);
    }
  }

  lemma {:induction false} LastIsNew(ports: seq<StreamPort>, b: Bucket)
    requires ports != [] && Distinct(ports)
    ensures !Allocated(ports[..|ports| - 1], b, ports[|ports| - 1].kongPort)
  {
  }

  /** Each bucket has one protocol. */
  lemma {:induction false} BucketsOfProtocols(ls: seq<Listener>, port: int)
    ensures var streams := Allocate(ls).streams;
      && (Allocated(streams, Ssl, port) <==> Carried(streams, TLS, port))
      && (Allocated(streams, Udp, port) <==> Carried(streams, UDP, port))
      && (Allocated(streams, Plain, port) <==> Carried(streams, TCP, port))
  {
    StreamProtocols(ls);
    hide Allocate;
    var streams := Allocate(ls).streams;
    forall s | s in streams
      ensures BucketFor(s.protocol) == Ssl <==> s.protocol == TLS
      ensures BucketFor(s.protocol) == Udp <==> s.protocol == UDP
      ensures BucketFor(s.protocol) == Plain <==> s.protocol == TCP
    {
    }
  }

  lemma {:induction false} StreamProtocols(ls: seq<Listener>)
    ensures forall s :: s in Allocate(ls).streams ==> s.protocol in {TLS, TCP, UDP}
  {
    if ls != [] {
      hide Assign;
      StreamProtocols(ls[..|ls| - 1]);
    }
  }

  /** The SSL endpoints of the earlier value, if it parses and has some; else any address with reuseport. */
  function UsersEndpoints(before: Env): seq<Endpoint> {
    var was := if "KONG_STREAM_LISTEN" in before then ParseListen(before["KONG_STREAM_LISTEN"]) else None;
    if was.Some? && was.value.sslEndpoints != [] then was.value.sslEndpoints
    else [Endpoint("0.0.0.0", 0, ["reuseport"])]
  }

  lemma {:induction false} TemplatesAreTheUsers(before: Env)
    ensures Templates(before) == TemplatesOf(UsersEndpoints(before))
  {
    EmptyDoesNotParse();
    hide ParseListen;
    assert TemplatesOf([]) == [];
    var default := Endpoint("0.0.0.0", 0, ["reuseport"]);
    assert TemplatesOf([default]) == [TemplateOf(default)];
  }

  lemma {:induction false} CountAfterSort(sorted: seq<StreamPort>, ls: seq<Listener>, users: seq<Endpoint>, b: Bucket,
                                          p: Protocol)
    requires Succeeds(ls) && IsSortOf(sorted, Allocate(ls).streams)
    requires (b == Ssl && p == TLS) || (b == Udp && p == UDP) || (b == Plain && p == TCP)
    ensures OneEachOf(Expected(sorted, TemplatesOf(users), b), Allocate(ls).streams, p, users)
  {
    StreamPortsAreDistinctAndUsable(ls);
    DistinctAfterSort(sorted, Allocate(ls).streams);
    hide Allocate, Expected, Allocated, Carried, Occurrences, TemplatesOf;
    forall x: Endpoint
      ensures multiset(Expected(sorted, TemplatesOf(users), b))[x] ==
        if Carried(Allocate(ls).streams, p, x.port) then Occurrences(users, x) else 0
    {
      ExpectedCount(sorted, users, b, x);
      AllocatedAfterSort(sorted, Allocate(ls).streams, b, x.port);
      BucketsOfProtocols(ls, x.port);
    }
  }

  /** The user's addresses and options are kept: read back, the new KONG_STREAM_LISTEN opens each stream
      port once on every SSL endpoint of the earlier value, with that endpoint's address and options, in
      the bucket of the port's protocol, and nothing else; where there was no such endpoint, once on any
      address with reuseport. */
  lemma {:induction false} UsersEndpointsAreKept(before: Env, ls: seq<Listener>, after: Env)
    requires Succeeds(ls) && Configured(before, ls, after) && Allocate(ls).streams != []
    ensures "KONG_STREAM_LISTEN" in after && ParseListen(after["KONG_STREAM_LISTEN"]).Some?
    ensures var c, streams := ParseListen(after["KONG_STREAM_LISTEN"]).value, Allocate(ls).streams;
      var was := if "KONG_STREAM_LISTEN" in before then ParseListen(before["KONG_STREAM_LISTEN"]) else None;
      var users := if was.Some? && was.value.sslEndpoints != [] then was.value.sslEndpoints
                   else [Endpoint("0.0.0.0", 0, ["reuseport"])];
      && OneEachOf(c.sslEndpoints, streams, TLS, users)
      && OneEachOf(c.udpEndpoints, streams, UDP, users)
      && OneEachOf(c.endpoints, streams, TCP, users)
  {
    var sorted := ConfiguredValue(before, ls, after);
    var users, ts := UsersEndpoints(before), Templates(before);
    TemplatesArePlain(before);
    TemplatesAreTheUsers(before);
    FitAfterSort(sorted, ls);
    StreamListenRoundTrip(sorted, ts);
    CountAfterSort(sorted, ls, users, Ssl, TLS);
    CountAfterSort(sorted, ls, users, Udp, UDP);
    CountAfterSort(sorted, ls, users, Plain, TCP);
    RenderedValueNotEmpty(sorted, ts);
    hide Configured, RenderAll, ParseListen, Allocate, Expected, OneEachOf, Templates, TemplatesOf, Join, Succeeds;
  }

  /** Nothing else of the environment changes; KONG_STREAM_LISTEN stays when there is no stream listener. */
  lemma {:induction false} OthersAreKept(before: Env, ls: seq<Listener>, after: Env, name: string)
    requires Configured(before, ls, after)
    requires name != "KONG_PORT_MAPS" && (name == "KONG_STREAM_LISTEN" ==> Allocate(ls).streams == [])
    ensures name in after <==> name in before
    ensures name in before ==> after[name] == before[name]
  {
    var a := Allocate(ls);
    var sorted, keys :| IsSortOf(sorted, a.streams) && ListsKeys(keys, a.kongPorts)
                        && after == WithListenPorts(before, sorted, keys, a.kongPorts);
    SameElements(sorted, a.streams);
    hide Allocate, Templates, RenderAll, MapEntries, ListsKeys, IsSortOf;
  }
}
