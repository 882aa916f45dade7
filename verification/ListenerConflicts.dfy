/** The Conflicted condition of Gateway listeners. */
module ListenerConflicts {
  import opened PortAllocation
  import opened PortSafety

  datatype Condition = NoConflicts | ProtocolConflict | HostnameConflict

  /** The status of the condition is True unless its reason is NoConflicts. */
  predicate Conflicted(c: Condition) {
    !c.NoConflicts?
  }

  /** The listeners clash on a port: different protocols, or one of them is TLS. */
  predicate ClashOnPort(a: Listener, b: Listener) {
    a.port == b.port && (a.protocol != b.protocol || a.protocol.TLS? || b.protocol.TLS?)
  }

  predicate ClashOnHostname(a: Listener, b: Listener) {
    a.hostname.Some? && a.hostname == b.hostname
  }

  predicate Clash(a: Listener, b: Listener) {
    ClashOnPort(a, b) || ClashOnHostname(a, b)
  }

  predicate ClashesWithAnother(ls: seq<Listener>, i: nat)
    requires i < |ls|
  {
    exists j :: 0 <= j < |ls| && j != i && Clash(ls[i], ls[j])
  }

  /** The first other listener that clashes with listener `i` decides the reason. */
  predicate ReasonGiven(ls: seq<Listener>, i: nat, c: Condition)
    requires i < |ls|
  {
    exists j :: 0 <= j < |ls| && j != i && Clash(ls[i], ls[j])
        && (forall h :: 0 <= h < j && h != i ==> !Clash(ls[i], ls[h]))
      && c == if ClashOnPort(ls[i], ls[j]) then ProtocolConflict else HostnameConflict
  }

  class Gateway {
    const listeners: seq<Listener>
    /** The Conflicted condition in the status of each listener. */
    var conflicted: seq<Condition>

    constructor (listeners: seq<Listener>, conflicted: seq<Condition>)
      requires |conflicted| == |listeners|
      ensures this.listeners == listeners && this.conflicted == conflicted
    {
      this.listeners, this.conflicted := listeners, conflicted;
    }

    /** The inner loop: the condition of listener `i`. */
    method ConditionOf(i: nat) returns (c: Condition)
      requires i < |listeners|
      ensures Conflicted(c) <==> ClashesWithAnother(listeners, i)
      ensures Conflicted(c) ==> ReasonGiven(listeners, i, c)
    {
      var l := listeners[i];
      c := NoConflicts;
      for j := 0 to |listeners|
        invariant c.NoConflicts?
        invariant forall h :: 0 <= h < j && h != i ==> !Clash(l, listeners[h])
      {
        if i != j {
          var l2 := listeners[j];
          if l.port == l2.port && l.protocol != l2.protocol {
            return ProtocolConflict;
          }
          if l.port == l2.port && l.protocol.TLS? {
            return ProtocolConflict;
          }
          if l.hostname.Some? && l2.hostname.Some? && l.hostname.value == l2.hostname.value {
            return HostnameConflict;
          }
        }
      }
    }

    /** A listener is marked exactly when another one has its port with another protocol or with TLS, or has
        its hostname; the first such listener decides the reason, the port before the hostname. */
    method SetConflicted()
      requires |conflicted| == |listeners|
      modifies this
      ensures |conflicted| == |listeners|
      ensures forall i :: 0 <= i < |listeners| ==> (Conflicted(conflicted[i]) <==> ClashesWithAnother(listeners, i))
      ensures forall i :: 0 <= i < |listeners| && Conflicted(conflicted[i]) ==> ReasonGiven(listeners, i, conflicted[i])
      ensures forall i :: 0 <= i < |listeners| ==>
        (conflicted[i] != NoConflicts <==>
           exists j :: 0 <= j < |listeners| && j != i && var (l, l2) := (listeners[i], listeners[j]);
             || (l.port == l2.port && (l.protocol != l2.protocol || l.protocol == TLS))
             || (l.hostname.Some? && l2.hostname.Some? && l.hostname.value == l2.hostname.value))
      ensures forall i, j :: 0 <= i < |listeners| && 0 <= j < |listeners| && j != i ==>
        var (l, l2) := (listeners[i], listeners[j]);
        && (l.port == l2.port && (l.protocol != l2.protocol || l.protocol == TLS)
            && (forall h :: 0 <= h < j && h != i ==> l.hostname.None? || l.hostname != listeners[h].hostname) ==>
              conflicted[i] == ProtocolConflict)
        && (l.hostname.Some? && l2.hostname.Some? && l.hostname.value == l2.hostname.value
            && (forall h :: 0 <= h <= j && h != i && listeners[h].port == l.port ==>
                  listeners[h].protocol == l.protocol && l.protocol != TLS) ==>
              conflicted[i] == HostnameConflict)
    {
      hide ClashesWithAnother, ReasonGiven;
      for i := 0 to |listeners|
        invariant |conflicted| == |listeners|
        invariant forall k :: 0 <= k < i ==> (Conflicted(conflicted[k]) <==> ClashesWithAnother(listeners, k))
        invariant forall k :: 0 <= k < i && Conflicted(conflicted[k]) ==> ReasonGiven(listeners, k, conflicted[k])
      {
        var c := ConditionOf(i);
        conflicted := conflicted[i := c];
      }
      forall i | 0 <= i < |listeners|
        ensures conflicted[i] != NoConflicts <==>
          exists j :: 0 <= j < |listeners| && j != i && var (l, l2) := (listeners[i], listeners[j]);
            || (l.port == l2.port && (l.protocol != l2.protocol || l.protocol == TLS))
            || (l.hostname.Some? && l2.hostname.Some? && l.hostname.value == l2.hostname.value)
      {
        MarkedIff(listeners, i);
      }
      forall i, j | 0 <= i < |listeners| && 0 <= j < |listeners| && j != i
        ensures var (l, l2) := (listeners[i], listeners[j]);
          && (l.port == l2.port && (l.protocol != l2.protocol || l.protocol == TLS)
              && (forall h :: 0 <= h < j && h != i ==> l.hostname.None? || l.hostname != listeners[h].hostname) ==>
                conflicted[i] == ProtocolConflict)
          && (l.hostname.Some? && l2.hostname.Some? && l.hostname.value == l2.hostname.value
              && (forall h :: 0 <= h <= j && h != i && listeners[h].port == l.port ==>
                    listeners[h].protocol == l.protocol && l.protocol != TLS) ==>
                conflicted[i] == HostnameConflict)
      {
        MarkedIff(listeners, i);
        if Conflicted(conflicted[i]) {
          ReasonOf(listeners, i, j, conflicted[i]);
        }
      }
    }
  }

  lemma {:induction false} MarkedIff(ls: seq<Listener>, i: nat)
    requires i < |ls|
    ensures ClashesWithAnother(ls, i) <==>
      exists j :: 0 <= j < |ls| && j != i && var (l, l2) := (ls[i], ls[j]);
        || (l.port == l2.port && (l.protocol != l2.protocol || l.protocol == TLS))
        || (l.hostname.Some? && l2.hostname.Some? && l.hostname.value == l2.hostname.value)
  {
  }

  /** The first clash decides: the port when nothing before it has the hostname, the hostname when no port
      up to it clashes. */
  lemma {:induction false} ReasonOf(ls: seq<Listener>, i: nat, j: nat, c: Condition)
    requires i < |ls| && j < |ls| && j != i && ReasonGiven(ls, i, c)
    ensures var (l, l2) := (ls[i], ls[j]);
      && (l.port == l2.port && (l.protocol != l2.protocol || l.protocol == TLS)
          && (forall h :: 0 <= h < j && h != i ==> l.hostname.None? || l.hostname != ls[h].hostname) ==>
            c == ProtocolConflict)
      && (l.hostname.Some? && l2.hostname.Some? && l.hostname.value == l2.hostname.value
          && (forall h :: 0 <= h <= j && h != i && ls[h].port == l.port ==>
                ls[h].protocol == l.protocol && l.protocol != TLS) ==>
            c == HostnameConflict)
  {
    var f :| 0 <= f < |ls| && f != i && Clash(ls[i], ls[f])
             && (forall h :: 0 <= h < f && h != i ==> !Clash(ls[i], ls[h]))
             && c == if ClashOnPort(ls[i], ls[f]) then ProtocolConflict else HostnameConflict;
    assert j < f ==> !Clash(ls[i], ls[j]);
  }

  // ---------------------------------------------------------------- properties

  /** `other` lists the same listeners as `ls` in another order: position i of `other` is position
      to[i] of `ls`, and back again. */
  predicate Reorders(ls: seq<Listener>, other: seq<Listener>, to: seq<nat>, back: seq<nat>) {
    && |ls| == |other| == |to| == |back|
    && (forall i :: 0 <= i < |ls| ==> to[i] < |ls| && back[i] < |ls|)
    && (forall i :: 0 <= i < |ls| ==> to[back[i]] == i && back[to[i]] == i)
    && (forall i :: 0 <= i < |ls| ==> other[i] == ls[to[i]])
  }

  /** Whether a listener is marked does not depend on the order of the list: clashing is mutual. */
  lemma {:induction false} MarkIgnoresOrder(ls: seq<Listener>, other: seq<Listener>, to: seq<nat>, back: seq<nat>,
                                            i: nat)
    requires Reorders(ls, other, to, back) && i < |ls|
    ensures ClashesWithAnother(other, i) <==> ClashesWithAnother(ls, to[i])
  {
    if j :| 0 <= j < |other| && j != i && Clash(other[i], other[j]) {
      assert back[to[j]] != back[to[i]] && Clash(ls[to[i]], ls[to[j]]);
    }
    if j :| 0 <= j < |ls| && j != to[i] && Clash(ls[to[i]], ls[j]) {
      assert to[back[j]] == j && Clash(other[i], other[back[j]]);
    }
  }

  /** A clash marks both listeners. */
  lemma {:induction false} MarksAreMutual(ls: seq<Listener>, i: nat, j: nat)
    requires i < |ls| && j < |ls| && i != j && Clash(ls[i], ls[j])
    ensures ClashesWithAnother(ls, i) && ClashesWithAnother(ls, j)
  {
    assert Clash(ls[j], ls[i]);
  }

  predicate PortClashWith(ls: seq<Listener>, i: nat, j: nat)
    requires i < |ls|
  {
    j < |ls| && j != i && ClashOnPort(ls[i], ls[j])
  }

  predicate HostOnlyClashWith(ls: seq<Listener>, i: nat, j: nat)
    requires i < |ls|
  {
    j < |ls| && j != i && ClashOnHostname(ls[i], ls[j]) && !ClashOnPort(ls[i], ls[j])
  }

  /** Some order of the same listeners gives listener `i` the reason. */
  ghost predicate ReasonInSomeOrder(ls: seq<Listener>, i: nat, c: Condition)
    requires i < |ls|
  {
    exists other, to, back, p :: ReasonAt(ls, i, c, other, to, back, p)
  }

  predicate ReasonAt(ls: seq<Listener>, i: nat, c: Condition, other: seq<Listener>, to: seq<nat>, back: seq<nat>,
                     p: nat)
    requires i < |ls|
  {
    Reorders(ls, other, to, back) && p < |ls| && to[p] == i && ReasonGiven(other, p, c)
  }

  lemma {:induction false} ReasonNeedsClash(ls: seq<Listener>, i: nat, c: Condition)
    requires i < |ls| && ReasonInSomeOrder(ls, i, c)
    ensures c.ProtocolConflict? ==> exists j :: PortClashWith(ls, i, j)
    ensures c.HostnameConflict? ==> exists j :: HostOnlyClashWith(ls, i, j)
    ensures Conflicted(c)
  {
    var other, to, back, p :| ReasonAt(ls, i, c, other, to, back, p);
    var j :| 0 <= j < |other| && j != p && Clash(other[p], other[j])
             && c == if ClashOnPort(other[p], other[j]) then ProtocolConflict else HostnameConflict;
    assert back[to[j]] != back[to[p]] && other[j] == ls[to[j]] && other[p] == ls[i];
    assert PortClashWith(ls, i, to[j]) || HostOnlyClashWith(ls, i, to[j]);
  }

  lemma {:induction false} FirstClash(ls: seq<Listener>, i: nat, j: nat) returns (f: nat)
    requires i < |ls| && j < |ls| && j != i && Clash(ls[i], ls[j])
    ensures f <= j && f != i && Clash(ls[i], ls[f]) && forall h :: 0 <= h < f && h != i ==> !Clash(ls[i], ls[h])
  {
    f := j;
    if h :| 0 <= h < j && h != i && Clash(ls[i], ls[h]) {
      f := FirstClash(ls, i, h);
    }
  }

  /** Swapping the first listener that clashes with listener `i` for a later one lets that one decide. */
  lemma {:induction false} SwapDecides(ls: seq<Listener>, i: nat, f: nat, j: nat)
    requires i < |ls| && f <= j < |ls| && f != i && j != i && Clash(ls[i], ls[j])
    requires forall h :: 0 <= h < f && h != i ==> !Clash(ls[i], ls[h])
    ensures ReasonInSomeOrder(ls, i, if ClashOnPort(ls[i], ls[j]) then ProtocolConflict else HostnameConflict)
  {
    var to: seq<nat> := seq(|ls|, (x: nat) => if x == f then j else if x == j then f else x);
    var other := ls[f := ls[j]][j := ls[f]];
    var c := if ClashOnPort(ls[i], ls[j]) then ProtocolConflict else HostnameConflict;
    assert Clash(other[i], other[f]);
    assert ReasonGiven(other, i, c);
    assert Reorders(ls, other, to, to);
    assert ReasonAt(ls, i, c, other, to, to, i);
  }

  lemma {:induction false} ClashDecides(ls: seq<Listener>, i: nat, j: nat)
    requires i < |ls| && j < |ls| && j != i && Clash(ls[i], ls[j])
    ensures ReasonInSomeOrder(ls, i, if ClashOnPort(ls[i], ls[j]) then ProtocolConflict else HostnameConflict)
  {
    var f := FirstClash(ls, i, j);
    SwapDecides(ls, i, f, j);
  }

  /** The reason, unlike the mark, follows the order: both reasons are possible for a listener if and
      only if it clashes with one listener on its port and with another one on its hostname only. */
  lemma {:induction false} ReasonFollowsOrderIff(ls: seq<Listener>, i: nat)
    requires i < |ls|
    ensures ReasonInSomeOrder(ls, i, ProtocolConflict) && ReasonInSomeOrder(ls, i, HostnameConflict) <==>
      (exists j :: PortClashWith(ls, i, j)) && (exists j :: HostOnlyClashWith(ls, i, j))
  {
    hide ReasonInSomeOrder;
    if ReasonInSomeOrder(ls, i, ProtocolConflict) && ReasonInSomeOrder(ls, i, HostnameConflict) {
      ReasonNeedsClash(ls, i, ProtocolConflict);
      ReasonNeedsClash(ls, i, HostnameConflict);
    }
    if j :| PortClashWith(ls, i, j) {
      ClashDecides(ls, i, j);
    }
    if j :| HostOnlyClashWith(ls, i, j) {
      ClashDecides(ls, i, j);
    }
  }

  predicate BothTCPOrBothUDP(a: Listener, b: Listener) {
    a.protocol == b.protocol && a.protocol in {TCP, UDP}
  }

  predicate AllSupported(ls: seq<Listener>) {
    forall l :: l in ls ==> !l.protocol.Unsupported?
  }

  /** What the Conflicted condition leaves to be checked: sharing is harmless exactly when no two
      listeners clash on a port and no two TCP or two UDP listeners share one. */
  lemma {:induction false} SharingAllowedIff(ls: seq<Listener>)
    requires AllSupported(ls)
    ensures SharingAllowed(ls) <==>
      forall j, k :: 0 <= j < k < |ls| && ls[j].port == ls[k].port ==>
            !ClashOnPort(ls[j], ls[k]) && !BothTCPOrBothUDP(ls[j], ls[k])
  {
    forall j, k | 0 <= j < k < |ls| && ls[j].port == ls[k].port
      ensures MayShare(ls[j], ls[k]) <==> !ClashOnPort(ls[j], ls[k]) && !BothTCPOrBothUDP(ls[j], ls[k])
    {
      assert ls[j] in ls && ls[k] in ls;
    }
  }

  /** If no listener is marked and no two TCP or two UDP listeners share a port, then no entry of
      the port map is overwritten with a different value. */
  lemma {:induction false} UnmarkedMeansNothingOverwritten(ls: seq<Listener>)
    requires Succeeds(ls)
    requires forall i :: 0 <= i < |ls| ==> !ClashesWithAnother(ls, i)
    requires forall j, k :: 0 <= j < k < |ls| && ls[j].port == ls[k].port ==> !BothTCPOrBothUDP(ls[j], ls[k])
    ensures NothingOverwritten(ls)
  {
    FailsIff(ls);
    SharingAllowedIff(ls);
    forall j, k | 0 <= j < k < |ls| && ls[j].port == ls[k].port ensures !ClashOnPort(ls[j], ls[k]) {
      if ClashOnPort(ls[j], ls[k]) {
        MarksAreMutual(ls, j, k);
      }
    }
    NothingOverwrittenIff(ls);
  }

  /** The entry for a port is the one of the last listener on it. */
  lemma {:induction false} LastEntryStands(ls: seq<Listener>, n: nat, k: nat) returns (h: nat)
    requires k < n <= |ls| && Succeeds(ls)
    ensures k <= h < n && ls[h].port == ls[k].port && Lookup(Allocate(ls[..n]).kongPorts, ls[k].port) == Given(ls, h)
  {
    GivenAtTurn(ls, n - 1);
    if ls[n - 1].port == ls[k].port {
      h := n - 1;
    } else {
      h := LastEntryStands(ls, n - 1, k);
    }
  }

  /** Two TCP or two UDP listeners on one port do not clash on it, and yet the entry of the port map is
      never the Kong port the earlier one was given, wherever they stand. */
  lemma {:induction false} EarlierStreamPortIsLost(ls: seq<Listener>, j: nat, k: nat)
    requires Succeeds(ls) && j < k < |ls| && ls[j].port == ls[k].port && BothTCPOrBothUDP(ls[j], ls[k])
    ensures Clash(ls[j], ls[k]) <==> ClashOnHostname(ls[j], ls[k])
    ensures Lookup(Allocate(ls).kongPorts, ls[j].port) != Given(ls, j)
  {
    assert ls[..|ls|] == ls;
    var h := LastEntryStands(ls, |ls|, k);
    GivenEqual(ls, j, h);
  }
}
