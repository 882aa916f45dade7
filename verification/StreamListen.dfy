/**
 From Gateway listeners to what Kong and its Service are configured with: KONG_STREAM_LISTEN,
 KONG_PORT_MAPS, the Service ports, and the NetworkPolicy ports read back from the environment.
 */
module StreamListen {
  import opened Wrappers
  import opened Strings
  import opened HostPorts
  import opened ListenStrings
  import opened PortAllocation
  import opened PortSafety

  const STREAM_LISTEN := "KONG_STREAM_LISTEN"
  const PORT_MAPS := "KONG_PORT_MAPS"

  type Env = map<string, string>

  function EnvValue(env: Env, name: string): string {
    if name in env then env[name] else ""
  }

  // ---------------------------------------------------------------- KONG_STREAM_LISTEN

  /** streamListenProtocolTokens. */
  function Tokens(p: Protocol): seq<string> {
    match p
    case TLS => ["ssl"]
    case UDP => ["udp"]
    case _ => []
  }

  function BucketFor(p: Protocol): Bucket {
    match p
    case TLS => Ssl
    case UDP => Udp
    case _ => Plain
  }

  const DEFAULT_TEMPLATES := [Template("0.0.0.0", ["reuseport"])]

  function TemplateOf(e: Endpoint): Template {
    Template(if e.address == "" then "0.0.0.0" else e.address, e.options)
  }

  function TemplatesOf(es: seq<Endpoint>): (ts: seq<Template>)
    ensures |ts| == |es| && forall k :: 0 <= k < |es| ==> ts[k] == TemplateOf(es[k])
  {
    if es == [] then [] else TemplatesOf(es[..|es| - 1]) + [TemplateOf(es[|es| - 1])]
  }

  /** One template per SSL endpoint the user configured, or the default. */
  function Templates(env: Env): (ts: seq<Template>)
    ensures ts != []
  {
    TemplatesIn(EnvValue(env, STREAM_LISTEN))
  }

  function TemplatesIn(value: string): (ts: seq<Template>)
    ensures ts != []
  {
    if value == "" || ParseListen(value).None? || ParseListen(value).value.sslEndpoints == [] then DEFAULT_TEMPLATES
    else TemplatesOf(ParseListen(value).value.sslEndpoints)
  }

  function RenderPort(sp: StreamPort, ts: seq<Template>): seq<string> {
    if ts == [] then []
    else RenderPort(sp, ts[..|ts| - 1]) + [RenderEntry(ts[|ts| - 1], sp.kongPort, Tokens(sp.protocol))]
  }

  function RenderAll(ports: seq<StreamPort>, ts: seq<Template>): seq<string> {
    if ports == [] then [] else RenderAll(ports[..|ports| - 1], ts) + RenderPort(ports[|ports| - 1], ts)
  }

  predicate SortedByPort(ports: seq<StreamPort>) {
    forall j, k :: 0 <= j < k < |ports| ==> ports[j].kongPort <= ports[k].kongPort
  }

  /** A possible result of sorting: the sort of the Go library is not stable. */
  predicate IsSortOf(sorted: seq<StreamPort>, ports: seq<StreamPort>) {
    SortedByPort(sorted) && multiset(sorted) == multiset(ports)
  }

  // ---------------------------------------------------------------- KONG_PORT_MAPS

  predicate Ascending(keys: seq<int>) {
    forall j, k :: 0 <= j < k < |keys| ==> keys[j] < keys[k]
  }

  ghost predicate ListsKeys(keys: seq<int>, m: map<int, int>) {
    Ascending(keys) && forall k :: k in keys <==> k in m
  }

  function MapEntry(port: int, kongPort: int): string {
    Itoa(port) + ":" + Itoa(kongPort)
  }

  function MapEntries(keys: seq<int>, m: map<int, int>): seq<string>
    requires forall k :: k in keys ==> k in m
  {
    if keys == [] then [] else MapEntries(keys[..|keys| - 1], m) + [MapEntry(keys[|keys| - 1], m[keys[|keys| - 1]])]
  }

  // ---------------------------------------------------------------- the environment as a whole

  function WithListenPorts(env: Env, sorted: seq<StreamPort>, keys: seq<int>, m: map<int, int>): Env
    requires forall k :: k in keys ==> k in m
  {
    var env' := if sorted == [] then env else env[STREAM_LISTEN := Join(RenderAll(sorted, Templates(env)), ',')];
    env'[PORT_MAPS := Join(MapEntries(keys, m), ',')]
  }

  /** `after` is what `before` becomes when the listeners are configured. */
  ghost predicate Configured(before: Env, ls: seq<Listener>, after: Env) {
    exists sorted, keys :: IsSortOf(sorted, Allocate(ls).streams) && ListsKeys(keys, Allocate(ls).kongPorts)
                           && after == WithListenPorts(before, sorted, keys, Allocate(ls).kongPorts)
  }

  // ---------------------------------------------------------------- sorting

  function InsertPort(ports: seq<StreamPort>, i: nat, x: StreamPort): (r: seq<StreamPort>)
    requires i <= |ports| && SortedByPort(ports)
    requires (forall k :: 0 <= k < i ==> ports[k].kongPort <= x.kongPort)
        && (i < |ports| ==> x.kongPort <= ports[i].kongPort)
    ensures IsSortOf(r, ports + [x])
  {
    InsertedPorts(ports, i, x);
    InsertedInOrder(ports, i, x);
    ports[..i] + [x] + ports[i..]
  }

  lemma {:induction false} InsertedPorts(ports: seq<StreamPort>, i: nat, x: StreamPort)
    requires i <= |ports|
    ensures multiset(ports[..i] + [x] + ports[i..]) == multiset(ports + [x])
  {
    assert ports == ports[..i] + ports[i..];
  }

  lemma {:induction false} InsertedInOrder(ports: seq<StreamPort>, i: nat, x: StreamPort)
    requires i <= |ports| && SortedByPort(ports)
    requires (forall k :: 0 <= k < i ==> ports[k].kongPort <= x.kongPort)
        && (i < |ports| ==> x.kongPort <= ports[i].kongPort)
    ensures SortedByPort(ports[..i] + [x] + ports[i..])
  {
    var r := ports[..i] + [x] + ports[i..];
    assert forall k :: i <= k < |ports| ==> x.kongPort <= ports[k].kongPort;
    forall j, k | 0 <= j < k < |r| ensures r[j].kongPort <= r[k].kongPort {
      assert r[j] == if j < i then ports[j] else if j == i then x else ports[j - 1];
      assert r[k] == if k < i then ports[k] else if k == i then x else ports[k - 1];
    }
  }

  method InsertByPort(ports: seq<StreamPort>, x: StreamPort) returns (r: seq<StreamPort>)
    requires SortedByPort(ports)
    ensures IsSortOf(r, ports + [x])
  {
    var i := 0;
    while i < |ports| && ports[i].kongPort <= x.kongPort
      invariant i <= |ports|
      invariant forall k :: 0 <= k < i ==> ports[k].kongPort <= x.kongPort
    {
      i := i + 1;
    }
    r := InsertPort(ports, i, x);
  }

  method SortStreamPorts(ports: seq<StreamPort>) returns (sorted: seq<StreamPort>)
    ensures IsSortOf(sorted, ports)
  {
    sorted := [];
    for n := 0 to |ports|
      invariant IsSortOf(sorted, ports[..n])
    {
      assert ports[..n + 1] == ports[..n] + [ports[n]];
      sorted := InsertByPort(sorted, ports[n]);
    }
    assert ports[..|ports|] == ports;
  }

  /** lo.Keys, in any order, followed by sort.Ints. */
  method SortedKeys(m: map<int, int>) returns (keys: seq<int>)
    ensures ListsKeys(keys, m)
  {
    keys := [];
    var rest, more := m.Keys, true;
    while more
      invariant Ascending(keys) && rest <= m.Keys
      invariant forall k :: k in keys <==> k in m && k !in rest
      invariant !more ==> forall k :: k !in rest
      decreases |rest|, more
    {
      if x :| x in rest {
        rest := rest - {x};
        var i := 0;
        while i < |keys| && keys[i] < x
          invariant i <= |keys|
          invariant forall k :: 0 <= k < i ==> keys[k] < x
        {
          i := i + 1;
        }
        keys := Insert(keys, i, x);
      } else {
        more := false;
      }
    }
  }

  function Insert(keys: seq<int>, i: nat, x: int): (r: seq<int>)
    requires i <= |keys| && Ascending(keys) && x !in keys
    requires (forall k :: 0 <= k < i ==> keys[k] < x) && (i < |keys| ==> x <= keys[i])
    ensures Ascending(r) && forall k :: k in r <==> k in keys || k == x
  {
    assert forall k :: i <= k < |keys| ==> x < keys[k];
    var r := keys[..i] + [x] + keys[i..];
    assert r[i] == x;
    assert forall k :: 0 <= k < |keys| ==> keys[k] == r[if k < i then k else k + 1];
    r
  }

  // ---------------------------------------------------------------- the options of the DataPlane

  datatype Transport = OverTCP | OverUDP

  datatype ServicePort = ServicePort(name: string, port: int, transport: Transport, targetPort: int, nodePort: int)

  /** An entry of spec.listenersOptions of the GatewayConfiguration. */
  datatype ListenerOptions = ListenerOptions(name: string, nodePort: int)

  /** lo.Find on the names. */
  function NodePortFor(options: seq<ListenerOptions>, name: string): int {
    if options == [] then 0 else if options[0].name == name then options[0].nodePort
        else NodePortFor(options[1..], name)
  }

  /** The port the Service sends a listener's traffic to; None when the map has no entry for it, or
      for an unsupported protocol. */
  function TargetOf(l: Listener, m: map<int, int>): Option<int> {
    match l.protocol
    case HTTPS => Some(PROXY_SSL_PORT)
    case HTTP => Some(PROXY_PORT)
    case Unsupported(_) => None
    case _ => if l.port in m then Some(m[l.port]) else None
  }

  /** The Service port of a listener; `generated` is the name used when the listener has none. */
  function ServicePortOf(l: Listener, m: map<int, int>, options: seq<ListenerOptions>,
                         generated: string): Option<ServicePort> {
    match TargetOf(l, m)
    case None => None
    case Some(target) =>
      Some(ServicePort(if l.name != "" then l.name else generated, l.port,
                       if l.protocol.UDP? then OverUDP else OverTCP, target, NodePortFor(options, l.name)))
  }

  /** The Service ports of the listeners that have one, in order. */
  function ServicePorts(ls: seq<Listener>, m: map<int, int>, options: seq<ListenerOptions>,
                        generated: seq<string>): seq<ServicePort>
    requires |generated| == |ls|
  {
    if ls == [] then []
    else
      var n := |ls| - 1;
      ServicePorts(ls[..n], m, options, generated[..n])
      + match ServicePortOf(ls[n], m, options, generated[n]) case Some(p) => [p] case None => []
  }

  predicate OptionsNameListeners(options: seq<ListenerOptions>, ls: seq<Listener>) {
    forall o :: o in options ==> exists l :: l in ls && l.name == o.name
  }

  predicate AllTargeted(ls: seq<Listener>, m: map<int, int>) {
    forall k :: 0 <= k < |ls| ==> TargetOf(ls[k], m).Some?
  }

  lemma {:induction false} NoServicePorts(m: map<int, int>, options: seq<ListenerOptions>)
    ensures ServicePorts([], m, options, []) == [] && AllTargeted([], m)
  {
  }

  lemma {:induction false} OneMoreServicePort(ls: seq<Listener>, m: map<int, int>, options: seq<ListenerOptions>,
                                              generated: seq<string>, i: nat)
    requires i < |ls| == |generated|
    ensures var port := ServicePortOf(ls[i], m, options, generated[i]);
      && ServicePorts(ls[..i + 1], m, options, generated[..i + 1]) ==
           ServicePorts(ls[..i], m, options, generated[..i]) + (if port.Some? then [port.value] else [])
      && (AllTargeted(ls[..i + 1], m) <==> AllTargeted(ls[..i], m) && port.Some?)
  {
    assert ls[..i + 1][..i] == ls[..i] && generated[..i + 1][..i] == generated[..i];
    hide TargetOf, NodePortFor;
    if AllTargeted(ls[..i + 1], m) {
      assert TargetOf(ls[..i + 1][i], m).Some?;
      forall k | 0 <= k < i ensures TargetOf(ls[..i][k], m).Some? {
        assert TargetOf(ls[..i + 1][k], m).Some?;
      }
    }
  }

  lemma {:induction false} PortsFailIff(ls: seq<Listener>, options: seq<ListenerOptions>, m: map<int, int>)
    ensures OptionsNameListeners(options, ls) <==> forall o :: o in options ==> exists l :: l in ls && l.name == o.name
    ensures AllTargeted(ls, m) <==>
      forall l :: l in ls ==> !l.protocol.Unsupported? && (l.protocol in {TLS, TCP, UDP} ==> l.port in m)
  {
    forall k | 0 <= k < |ls|
      ensures TargetOf(ls[k], m).Some? <==>
        !ls[k].protocol.Unsupported? && (ls[k].protocol in {TLS, TCP, UDP} ==> ls[k].port in m)
    {
    }
    hide TargetOf;
    if AllTargeted(ls, m) {
      forall l | l in ls ensures TargetOf(l, m).Some? {
        var k :| 0 <= k < |ls| && ls[k] == l;
      }
    }
  }

  class DataPlaneOptions {
    /** The environment of the proxy container; None when the pod template has no such container. */
    var env: Option<Env>
    /** The ports of the ingress Service options; None when these are not set. */
    var ingressPorts: Option<seq<ServicePort>>

    constructor (env: Option<Env>, ingressPorts: Option<seq<ServicePort>>)
      ensures this.env == env && this.ingressPorts == ingressPorts
    {
      this.env, this.ingressPorts := env, ingressPorts;
    }

    method SetDataPlaneDeploymentListenPorts(ls: seq<Listener>) returns (m: Option<map<int, int>>)
      modifies this`env
      ensures m.Some? <==> old(env).Some? && Succeeds(ls)
      ensures m.None? ==> env == old(env)
      ensures m.Some? ==> m.value == Allocate(ls).kongPorts && env.Some? && Configured(old(env).value, ls, env.value)
    {
      if env.None? {
        return None;
      }
      var allocator := new Allocator();
      allocator.HandleListeners(ls);
      if allocator.failures != [] {
        return None;
      }
      var kongPorts := allocator.kongPorts;
      var sorted := SortStreamPorts(allocator.streams);
      ghost var before := env.value;
      var after := env.value;
      assert |multiset(sorted)| == |multiset(allocator.streams)|;
      if |allocator.streams| > 0 {
        var templates := StreamListenTemplates(EnvValue(env.value, STREAM_LISTEN));
        assert templates == Templates(env.value);
        var entries := RenderStreamListen(sorted, templates);
        after := after[STREAM_LISTEN := Join(entries, ',')];
      }
      var keys := SortedKeys(kongPorts);
      var portMaps := RenderPortMaps(keys, kongPorts);
      after := after[PORT_MAPS := Join(portMaps, ',')];
      env := Some(after);
      assert after == WithListenPorts(before, sorted, keys, kongPorts);
      m := Some(kongPorts);
    }

    /** setDataPlaneIngressServicePorts. */
    method SetDataPlaneIngressServicePorts(ls: seq<Listener>, options: seq<ListenerOptions>, m: map<int, int>,
                                           generated: seq<string>) returns (ok: bool)
      requires |generated| == |ls|
      modifies this`ingressPorts
      ensures ok <==> OptionsNameListeners(options, ls) && AllTargeted(ls, m)
      ensures ok <==>
        && (forall o :: o in options ==> exists l :: l in ls && l.name == o.name)
        && forall l :: l in ls ==> !l.protocol.Unsupported? && (l.protocol in {TLS, TCP, UDP} ==> l.port in m)
      ensures ingressPorts ==
        if !OptionsNameListeners(options, ls) || ls == [] then old(ingressPorts)
        else Some(old(ingressPorts).GetOr([]) + ServicePorts(ls, m, options, generated))
    {
      hide ServicePorts, AllTargeted, ServicePortOf, OptionsNameListeners;
      PortsFailIff(ls, options, m);
      NoServicePorts(m, options);
      if !OptionsNameListeners(options, ls) {
        return false;
      }
      if ls == [] {
        return true;
      }
      var ports := ingressPorts.GetOr([]);
      ok := true;
      assert ls[..0] == [] && generated[..0] == [];
      for i := 0 to |ls|
        invariant ports == old(ingressPorts).GetOr([]) + ServicePorts(ls[..i], m, options, generated[..i])
        invariant ok <==> AllTargeted(ls[..i], m)
      {
        OneMoreServicePort(ls, m, options, generated, i);
        var port := ServicePortOf(ls[i], m, options, generated[i]);
        if port.Some? {
          ports := ports + [port.value];
        } else {
          ok := false;
        }
      }
      assert ls[..|ls|] == ls && generated[..|ls|] == generated;
      ingressPorts := Some(ports);
    }

    /** setDataPlaneOptionsForListeners.  Once ports could be allocated, the only thing left to fail
        is a listener option without a listener. */
    method SetDataPlaneOptionsForListeners(ls: seq<Listener>, options: seq<ListenerOptions>, generated: seq<string>)
      returns (ok: bool)
      requires |generated| == |ls|
      modifies this
      ensures ok <==> old(env).Some? && Succeeds(ls) && OptionsNameListeners(options, ls)
      ensures old(env).Some? && Succeeds(ls) ==> env.Some? && Configured(old(env).value, ls, env.value)
      ensures !(old(env).Some? && Succeeds(ls)) ==> env == old(env) && ingressPorts == old(ingressPorts)
      ensures ok && ls != [] ==>
          ingressPorts == Some(old(ingressPorts).GetOr([]) + ServicePorts(ls, Allocate(ls).kongPorts, options,
          generated))
    {
      var m := SetDataPlaneDeploymentListenPorts(ls);
      if m.None? {
        return false;
      }
      AllAreTargeted(ls);
      ok := SetDataPlaneIngressServicePorts(ls, options, m.value, generated);
    }
  }

  /** The templates taken from the earlier value of KONG_STREAM_LISTEN. */
  method StreamListenTemplates(streamListen: string) returns (templates: seq<Template>)
    ensures templates == TemplatesIn(streamListen)
  {
    templates := [Template("0.0.0.0", ["reuseport"])];
    hide Collect, ParseEach, Split;
    if streamListen != "" {
      var config := ParseKongListenEnv(streamListen);
      if config.Some? && |config.value.sslEndpoints| > 0 {
        templates := CollectTemplates(config.value.sslEndpoints);
      }
    }
  }

  method CollectTemplates(endpoints: seq<Endpoint>) returns (templates: seq<Template>)
    ensures templates == TemplatesOf(endpoints)
  {
    templates := [];
    for k := 0 to |endpoints|
      invariant templates == TemplatesOf(endpoints[..k])
    {
      var address := endpoints[k].address;
      if address == "" {
        address := "0.0.0.0";
      }
      assert endpoints[..k + 1][..k] == endpoints[..k];
      templates := templates + [Template(address, endpoints[k].options)];
    }
    assert endpoints[..|endpoints|] == endpoints;
  }

  /** The nested rendering loop. */
  method RenderStreamListen(sorted: seq<StreamPort>, ts: seq<Template>) returns (entries: seq<string>)
    ensures entries == RenderAll(sorted, ts)
  {
    entries := [];
    assert RenderAll([], ts) == [];
    hide RenderAll, RenderPort, RenderEntry;
    for n := 0 to |sorted|
      invariant entries == RenderAll(sorted[..n], ts)
    {
      var one := RenderOne(sorted[n], ts);
      OneMorePort(sorted, ts, n);
      entries := entries + one;
    }
    assert sorted[..|sorted|] == sorted;
  }

  lemma {:induction false} OneMorePort(sorted: seq<StreamPort>, ts: seq<Template>, n: nat)
    requires n < |sorted|
    ensures RenderAll(sorted[..n + 1], ts) == RenderAll(sorted[..n], ts) + RenderPort(sorted[n], ts)
  {
    assert sorted[..n + 1][..n] == sorted[..n];
    hide RenderPort;
  }

  lemma {:induction false} OneMoreTemplate(sp: StreamPort, ts: seq<Template>, k: nat)
    requires k < |ts|
    ensures RenderPort(sp, ts[..k + 1]) ==
        RenderPort(sp, ts[..k]) + [RenderEntry(ts[k], sp.kongPort, Tokens(sp.protocol))]
  {
    assert ts[..k + 1][..k] == ts[..k];
    hide RenderEntry;
  }

  /** The inner loop: one port with every template. */
  method RenderOne(sp: StreamPort, ts: seq<Template>) returns (entries: seq<string>)
    ensures entries == RenderPort(sp, ts)
  {
    entries := [];
    assert RenderPort(sp, []) == [];
    hide RenderPort, RenderEntry;
    for k := 0 to |ts|
      invariant entries == RenderPort(sp, ts[..k])
    {
      OneMoreTemplate(sp, ts, k);
      entries := entries + [RenderEntry(ts[k], sp.kongPort, Tokens(sp.protocol))];
    }
    assert ts[..|ts|] == ts;
  }

  method RenderPortMaps(keys: seq<int>, m: map<int, int>) returns (entries: seq<string>)
    requires forall k :: k in keys ==> k in m
    ensures entries == MapEntries(keys, m)
  {
    entries := [];
    for n := 0 to |keys|
      invariant entries == MapEntries(keys[..n], m)
    {
      assert keys[..n + 1][..n] == keys[..n];
      entries := entries + [MapEntry(keys[n], m[keys[n]])];
    }
    assert keys[..|keys|] == keys;
  }

  lemma {:induction false} AllAreTargeted(ls: seq<Listener>)
    requires Succeeds(ls)
    ensures AllTargeted(ls, Allocate(ls).kongPorts)
  {
    FailsIff(ls);
    forall k | 0 <= k < |ls| ensures TargetOf(ls[k], Allocate(ls).kongPorts).Some? {
      assert ls[k] in ls;
      EveryPortIsMapped(ls, k);
    }
  }

  // ---------------------------------------------------------------- NetworkPolicy

  datatype Rule = Rule(transport: Transport, ports: seq<int>)

  function PortsOf(es: seq<Endpoint>): (ps: seq<int>)
    ensures |ps| == |es| && forall k :: 0 <= k < |es| ==> ps[k] == es[k].port
  {
    if es == [] then [] else PortsOf(es[..|es| - 1]) + [es[|es| - 1].port]
  }

  function RuleFor(transport: Transport, ports: seq<int>): seq<Rule> {
    if ports == [] then [] else [Rule(transport, ports)]
  }

  /** The stream rules for the parsed value of KONG_STREAM_LISTEN. */
  function RulesFor(c: ListenConfig): seq<Rule> {
    RuleFor(OverTCP, PortsOf(c.endpoints) + PortsOf(c.sslEndpoints)) + RuleFor(OverUDP, PortsOf(c.udpEndpoints))
  }

  function RulesOf(config: Option<ListenConfig>): Option<seq<Rule>> {
    match config
    case None => None
    case Some(c) => Some(RulesFor(c))
  }

  /** The stream part of generateDataPlaneNetworkPolicy, for the value of KONG_STREAM_LISTEN.
      None stands for an error. */
  method StreamRules(streamListen: string) returns (r: Option<seq<Rule>>)
    ensures streamListen == "" ==> r == Some([])
    ensures streamListen != "" ==> r == RulesOf(Collect(ParseEach(Split(streamListen, ','))))
  {
    if streamListen == "" {
      return Some([]);
    }
    var config := ParseKongListenEnv(streamListen);
    if config.None? {
      return None;
    }
    var rules := AppendRules(config.value);
    r := Some(rules);
  }

  method AppendRules(c: ListenConfig) returns (rules: seq<Rule>)
    ensures rules == RulesFor(c)
  {
    var udpPorts := PortsOf(c.udpEndpoints);
    var tcpPorts := PortsOf(c.endpoints) + PortsOf(c.sslEndpoints);
    rules := [];
    if |tcpPorts| > 0 {
      rules := rules + [Rule(OverTCP, tcpPorts)];
    }
    if |udpPorts| > 0 {
      rules := rules + [Rule(OverUDP, udpPorts)];
    }
  }
}
