/** Gateway listeners and the Kong ports they are given. */
module PortAllocation {
  import opened Wrappers

  const PROXY_PORT := 8000
  const PROXY_SSL_PORT := 8443
  const METRICS_PORT := 8100
  const ADMIN_API_PORT := 8444
  const RESERVED := {PROXY_PORT, PROXY_SSL_PORT, METRICS_PORT, ADMIN_API_PORT}

  /** Where ports are taken from when a listener cannot have its own. */
  const WINDOW_START := 16384
  const WINDOW_SIZE := 1024
  const WINDOW_END := WINDOW_START + WINDOW_SIZE

  /** The port numbers of the Gateway API are 32-bit integers. */
  type PortNumber = p: int | -0x8000_0000 <= p <= 0x7fff_ffff witness 0

  datatype Protocol = HTTP | HTTPS | TLS | TCP | UDP | Unsupported(name: string)

  datatype Listener = Listener(name: string, port: PortNumber, protocol: Protocol, hostname: Option<string>)

  predicate IsStream(l: Listener) {
    l.protocol in {TLS, TCP, UDP}
  }

  datatype StreamPort = StreamPort(kongPort: int, protocol: Protocol)

  datatype Failure = NoPortLeft(listener: nat, port: int) | UnsupportedProtocol(listener: nat, protocol: Protocol)

  /** The variables of the listener loop. */
  datatype Allocation = Allocation(
    kongPorts: map<int, int>,
    occupied: set<int>,
    cursor: int,
    streams: seq<StreamPort>,
    failures: seq<Failure>)

  // ---------------------------------------------------------------- specification

  /** The first port at or after `c` that is free, or the end of the window. */
  function NextFree(occupied: set<int>, c: int): (r: int)
    ensures c <= WINDOW_END ==> c <= r <= WINDOW_END
    ensures r < WINDOW_END ==> r !in occupied
    ensures forall p :: c <= p < r ==> p in occupied
    decreases WINDOW_END - c
  {
    if c < WINDOW_END && c in occupied then NextFree(occupied, c + 1) else c
  }

  /** A port Kong cannot listen on for this listener. */
  predicate MustMove(a: Allocation, port: int) {
    port < 1024 || port in a.occupied
  }

  /** assignStreamPort, for listener `i`. */
  function Assign(a: Allocation, i: nat, port: int): Allocation {
    if !MustMove(a, port) then a.(kongPorts := a.kongPorts[port := port], occupied := a.occupied + {port})
    else
      var c := NextFree(a.occupied, a.cursor);
      if c < WINDOW_END then a.(kongPorts := a.kongPorts[port := c], occupied := a.occupied + {c}, cursor := c)
      else a.(cursor := c, failures := a.failures + [NoPortLeft(i, port)])
  }

  /** Reading a Go map: a missing key reads as zero. */
  function Lookup(m: map<int, int>, k: int): int {
    if k in m then m[k] else 0
  }

  function Handle(a: Allocation, i: nat, l: Listener): Allocation {
    match l.protocol
    case HTTP => a.(kongPorts := a.kongPorts[l.port := PROXY_PORT])
    case HTTPS => a.(kongPorts := a.kongPorts[l.port := PROXY_SSL_PORT])
    case Unsupported(_) => a.(failures := a.failures + [UnsupportedProtocol(i, l.protocol)])
    case _ =>
      var a' := Assign(a, i, l.port);
      a'.(streams := a'.streams + [StreamPort(Lookup(a'.kongPorts, l.port), l.protocol)])
  }

  const START := Allocation(map[], RESERVED, WINDOW_START, [], [])

  /** The state after all of `ls`. */
  function Allocate(ls: seq<Listener>): Allocation {
    if ls == [] then START else Handle(Allocate(ls[..|ls| - 1]), |ls| - 1, ls[|ls| - 1])
  }

  predicate Succeeds(ls: seq<Listener>) {
    Allocate(ls).failures == []
  }

  // ---------------------------------------------------------------- the loop

  /** The captured variables of assignStreamPort. */
  class Allocator {
    var kongPorts: map<int, int>
    var occupied: set<int>
    var cursor: int
    var streams: seq<StreamPort>
    var failures: seq<Failure>

    constructor ()
      ensures State() == START
    {
      kongPorts, occupied, cursor, streams, failures := map[], RESERVED, WINDOW_START, [], [];
    }

    function State(): Allocation
      reads this
    {
      Allocation(kongPorts, occupied, cursor, streams, failures)
    }

    method AssignStreamPort(i: nat, port: int)
      modifies this
      ensures State() == Assign(old(State()), i, port)
    {
      if port < 1024 || port in occupied {
        while cursor < WINDOW_END && cursor in occupied
          invariant NextFree(old(occupied), cursor) == NextFree(old(occupied), old(cursor))
          invariant kongPorts == old(kongPorts) && occupied == old(occupied)
          invariant streams == old(streams) && failures == old(failures)
          decreases WINDOW_END - cursor
        {
          cursor := cursor + 1;
        }
        if cursor < WINDOW_END {
          kongPorts := kongPorts[port := cursor];
          occupied := occupied + {cursor};
        } else {
          failures := failures + [NoPortLeft(i, port)];
        }
      } else {
        kongPorts := kongPorts[port := port];
        occupied := occupied + {port};
      }
    }

    /** The listener loop of setDataPlaneDeploymentListenPorts. */
    method HandleListeners(ls: seq<Listener>)
      requires State() == START
      modifies this
      ensures State() == Allocate(ls)
    {
      for i := 0 to |ls|
        invariant State() == Allocate(ls[..i])
      {
        assert ls[..i + 1][..i] == ls[..i];
        var l := ls[i];
        match l.protocol {
          case HTTP => kongPorts := kongPorts[l.port := PROXY_PORT];
          case HTTPS => kongPorts := kongPorts[l.port := PROXY_SSL_PORT];
          case Unsupported(_) => failures := failures + [UnsupportedProtocol(i, l.protocol)];
          case _ =>
            AssignStreamPort(i, l.port);
            streams := streams + [StreamPort(Lookup(kongPorts, l.port), l.protocol)];
        }
      }
      assert ls[..|ls|] == ls;
    }
  }
}
