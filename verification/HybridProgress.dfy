/**
 Why enforcement finishes: on a well-ordered desired list, a pass over a settled cluster
 either writes something that was missing or outdated, or finds everything in place.
 */
module HybridProgress {
  import opened Wrappers
  import opened Annotations
  import opened HybridState
  import opened HybridSafety

  predicate Quiet(arounds: seq<Around>) {
    forall a :: a in arounds ==> a.unreadable == {} && !a.recordFails && !a.applyFails
  }

  /** Konnect has programmed everything there is, and nothing is being deleted. */
  predicate Settled(c: Cluster) {
    forall k :: k in c ==> c[k].programmed && !c[k].deleting && c[k].obj.key == k
  }

  /** The objects, other than targets of its upstream, that `o` waits for. */
  function Needs(ds: seq<Object>, o: Object): set<Key> {
    match o.key.kind
    case KongService =>
      (if o.host != "" && UpstreamDesired(ds, o.host) then {Sibling(o, KongUpstream, o.host)} else {})
      + (if o.clientCertificate != "" then {Sibling(o, KongCertificate, o.clientCertificate)} else {})
    case KongTarget => if o.upstreamRef != "" then {Sibling(o, KongUpstream, o.upstreamRef)} else {}
    case KongRoute => if o.serviceRef != "" then {Sibling(o, KongService, o.serviceRef)} else {}
    case KongPluginBinding =>
      (if o.bindsRoute != "" then {Sibling(o, KongRoute, o.bindsRoute)} else {})
      + (if o.bindsKongService && o.bindsService != "" then {Sibling(o, KongService, o.bindsService)} else {})
    case _ => {}
  }

  predicate Precedes(ds: seq<Object>, k: Key, i: int)
    requires i <= |ds|
  {
    exists j :: 0 <= j < i && ds[j].key == k
  }

  predicate DistinctKeys(ds: seq<Object>) {
    forall i, j :: 0 <= i < j < |ds| ==> ds[i].key != ds[j].key
  }

  /** What an object waits for stands before it. */
  predicate NeedsPrecede(ds: seq<Object>) {
    forall i, k :: 0 <= i < |ds| && k in Needs(ds, ds[i]) ==> Precedes(ds, k, i)
  }

  /** What an object waits for stands before it; and between a service and a target of its
      upstream stand only targets whose own upstream precedes the service. */
  predicate WellOrdered(ds: seq<Object>) {
    && DistinctKeys(ds)
    && NeedsPrecede(ds)
    && (forall i, m, t :: 0 <= i < m <= t < |ds| && IsTargetOf(ds[t], ds[i]) && ds[m].key.kind.KongTarget? ==>
          forall k :: k in Needs(ds, ds[m]) ==> Precedes(ds, k, i))
  }

  predicate IsTargetOf(t: Object, s: Object) {
    s.key.kind.KongService? && t.key.kind.KongTarget? && s.host != "" && t.upstreamRef == s.host
  }

  predicate SyncedUpTo(root: Root, ds: seq<Object>, c: Cluster, i: int)
    requires i <= |ds|
  {
    forall j :: 0 <= j < i ==> Synced(root, c, ds[j])
  }

  /** The loop before its first skip or write. */
  predicate Untouched(root: Root, ds: seq<Object>, c: Cluster, l: Loop, i: nat) {
    i <= |ds| && l == Start(c) && SyncedUpTo(root, ds, c, i)
  }

  /** The loop looking for a missing target, which it will reach and create. */
  predicate Hunting(ds: seq<Object>, c: Cluster, l: Loop, i: nat, t: nat) {
    && i <= t < |ds| && l.cluster == c && l.created == l.updated == 0 && l.stopAt == Some(KongTarget)
    && ds[t].key.kind.KongTarget? && ds[t].key !in c
    && forall m, k :: i <= m <= t && ds[m].key.kind.KongTarget? && k in Needs(ds, ds[m]) ==> k in c
  }

  predicate Moved(l: Loop) {
    l.created + l.updated > 0
  }

  lemma {:induction false} SettledProgram(c: Cluster, ks: set<Key>)
    requires Settled(c)
    ensures Program(c, ks) == c
  {
  }

  lemma {:induction false} MissingTarget(targets: seq<Object>, c: Cluster) returns (t: Object)
    requires Settled(c) && !TargetsGate(targets, c, {}).Pass?
    ensures TargetsGate(targets, c, {}) == WaitFor(KongTarget)
    ensures t in targets && t.key !in c
  {
    if targets[0].key !in c {
      t := targets[0];
    } else {
      t := MissingTarget(targets[1..], c);
    }
  }

  lemma {:induction false} PrecedesInCluster(root: Root, ds: seq<Object>, c: Cluster, k: Key, i: nat)
    requires i <= |ds| && SyncedUpTo(root, ds, c, i) && Precedes(ds, k, i)
    ensures k in c
  {
  }

  /** With its needs in the cluster, an object is held back only by a missing target of its upstream. */
  lemma {:induction false} GateOpens(ds: seq<Object>, c: Cluster, o: Object)
    requires Settled(c) && forall k :: k in Needs(ds, o) ==> k in c
    ensures GateOf(ds, c, o, {}).Pass? ||
      (GateOf(ds, c, o, {}) == WaitFor(KongTarget) && o.key.kind.KongService? && o.host != ""
       && !TargetsGate(TargetsOf(ds, o.host), c, {}).Pass?)
  {
    if o.key.kind.KongService? && o.host != "" && UpstreamDesired(ds, o.host) {
      assert Sibling(o, KongUpstream, o.host) in Needs(ds, o);
      if !TargetsGate(TargetsOf(ds, o.host), c, {}).Pass? {
        var t := MissingTarget(TargetsOf(ds, o.host), c);
      }
    }
  }

  lemma {:induction false} NothingToRecord(root: Root, ds: seq<Object>, c: Cluster, i: nat)
    requires i < |ds| && SyncedUpTo(root, ds, c, i) && forall k :: k in Needs(ds, ds[i]) ==> Precedes(ds, k, i)
    ensures ServiceToRecordOn(root, c, ds[i]).None?
  {
    var o := ds[i];
    var k := Sibling(o, KongService, o.serviceRef);
    if o.key.kind.KongRoute? && o.serviceRef != "" && root.Route? {
      assert k in Needs(ds, o);
      var j :| 0 <= j < i && ds[j].key == k;
      assert Synced(root, c, ds[j]);
    }
  }

  lemma {:induction false} CleanStep(root: Root, ds: seq<Object>, c: Cluster, l: Loop, i: nat, around: Around)
    returns (t: nat)
    requires WellOrdered(ds) && Settled(c) && i < |ds| && Untouched(root, ds, c, l, i) && Quiet([around])
    ensures var out := Iterate(root, ds, l, ds[i], around);
      out.Running? && (Moved(out.loop) || Untouched(root, ds, c, out.loop, i + 1) || Hunting(ds, c, out.loop, i + 1, t))
  {
    t := 0;
    assert around in [around];
    var o := ds[i];
    SettledProgram(c, around.programs);
    forall k | k in Needs(ds, o) ensures k in c {
      PrecedesInCluster(root, ds, c, k, i);
    }
    GateOpens(ds, c, o);
    NothingToRecord(root, ds, c, i);
    if !GateOf(ds, c, o, {}).Pass? {
      t := HuntFrom(root, ds, c, i);
    }
  }

  lemma {:induction false} HuntFrom(root: Root, ds: seq<Object>, c: Cluster, i: nat) returns (t: nat)
    requires WellOrdered(ds) && Settled(c) && i < |ds| && SyncedUpTo(root, ds, c, i)
    requires ds[i].key.kind.KongService? && ds[i].host != "" && !TargetsGate(TargetsOf(ds, ds[i].host), c, {}).Pass?
    ensures i < t < |ds| && ds[t].key.kind.KongTarget? && ds[t].key !in c
    ensures forall m, k :: i < m <= t && ds[m].key.kind.KongTarget? && k in Needs(ds, ds[m]) ==> k in c
  {
    var missing := MissingTarget(TargetsOf(ds, ds[i].host), c);
    TargetsOfContains(ds, ds[i].host, missing);
    t :| 0 <= t < |ds| && ds[t] == missing;
    assert t < i ==> Synced(root, c, ds[t]);
    assert IsTargetOf(ds[t], ds[i]);
    forall m, k | i < m <= t && ds[m].key.kind.KongTarget? && k in Needs(ds, ds[m]) ensures k in c {
      assert Precedes(ds, k, i);
      PrecedesInCluster(root, ds, c, k, i);
    }
  }

  lemma {:induction false} HuntStep(root: Root, ds: seq<Object>, c: Cluster, l: Loop, i: nat, t: nat, around: Around)
    requires Settled(c) && i < |ds| && Hunting(ds, c, l, i, t) && Quiet([around])
    ensures var out := Iterate(root, ds, l, ds[i], around);
      out.Running? && (Moved(out.loop) || Hunting(ds, c, out.loop, i + 1, t))
  {
    assert around in [around];
    SettledProgram(c, around.programs);
    if ds[i].key.kind.KongTarget? {
      assert forall k :: k in Needs(ds, ds[i]) ==> k in c;
      GateOpens(ds, c, ds[i]);
    }
  }

  lemma {:induction false} MovedStep(root: Root, ds: seq<Object>, l: Loop, o: Object, around: Around)
    requires Moved(l) && Quiet([around])
    ensures var out := Iterate(root, ds, l, o, around); out.Running? && Moved(out.loop)
  {
    assert around in [around];
    var c := Program(l.cluster, around.programs);
    NoAbort(TargetsOf(ds, o.host), c);
  }

  lemma {:induction false} NoAbort(targets: seq<Object>, c: Cluster)
    ensures !TargetsGate(targets, c, {}).Abort?
  {
    if targets != [] {
      NoAbort(targets[1..], c);
    }
  }

  predicate AllSynced(root: Root, ds: seq<Object>, c: Cluster) {
    forall o :: o in ds ==> Synced(root, c, o)
  }

  lemma {:induction false} QuietPassFrom(root: Root, ds: seq<Object>, c: Cluster, i: nat, l: Loop, t: nat,
                                         arounds: seq<Around>)
    requires WellOrdered(ds) && Settled(c) && i <= |ds| == |arounds| && Quiet(arounds)
    requires Moved(l) || Untouched(root, ds, c, l, i) || Hunting(ds, c, l, i, t)
    ensures var out := EnforceFrom(root, ds, i, l, arounds);
      out.Running? && (Moved(out.loop) || (out.loop == Start(c) && AllSynced(root, ds, c)))
    decreases |ds| - i
  {
    if i < |ds| {
      assert arounds[i] in arounds;
      assert Quiet([arounds[i]]);
      var t' := t;
      if Moved(l) {
        MovedStep(root, ds, l, ds[i], arounds[i]);
      } else if Untouched(root, ds, c, l, i) {
        t' := CleanStep(root, ds, c, l, i, arounds[i]);
      } else {
        HuntStep(root, ds, c, l, i, t, arounds[i]);
      }
      QuietPassFrom(root, ds, c, i + 1, Iterate(root, ds, l, ds[i], arounds[i]).loop, t', arounds);
    }
  }

  // ---------------------------------------------------------------- the measure

  function Unsynced(root: Root, ds: seq<Object>, c: Cluster): nat {
    if ds == [] then 0
    else (if Synced(root, c, ds[0]) then 0 else 1) + Unsynced(root, ds[1..], c)
  }

  lemma {:induction false} UnsyncedMonotone(root: Root, ds: seq<Object>, c: Cluster, d: Cluster)
    requires forall o :: o in ds && Synced(root, c, o) ==> Synced(root, d, o)
    ensures Unsynced(root, ds, d) <= Unsynced(root, ds, c)
    ensures (exists o :: o in ds && Synced(root, d, o) && !Synced(root, c, o)) ==>
        Unsynced(root, ds, d) < Unsynced(root, ds, c)
  {
    if ds != [] {
      assert forall o :: o in ds <==> o == ds[0] || o in ds[1..];
      UnsyncedMonotone(root, ds[1..], c, d);
    }
  }

  lemma {:induction false} UnsyncedZero(root: Root, ds: seq<Object>, c: Cluster)
    ensures Unsynced(root, ds, c) == 0 <==> AllSynced(root, ds, c)
  {
    if ds != [] {
      assert forall o :: o in ds <==> o == ds[0] || o in ds[1..];
      UnsyncedZero(root, ds[1..], c);
    }
  }

  predicate PlainRoot(root: Root) {
    root.Route? ==> ',' !in root.routeRef
  }

  /** An iteration takes nothing out of place, and what it writes it puts in place. */
  lemma {:induction false} IterateSyncs(root: Root, ds: seq<Object>, l: Loop, o: Object, around: Around, d: Object)
    requires PlainRoot(root) && (d.key == o.key ==> d == o)
    ensures var out := Iterate(root, ds, l, o, around);
      && (Synced(root, l.cluster, d) ==> Synced(root, ClusterOf(out), d))
      && (out.Running? && out.loop.created + out.loop.updated != l.created + l.updated ==>
            && out.loop.created + out.loop.updated == l.created + l.updated + 1
            && (d == o ==> Synced(root, out.loop.cluster, d) && !Synced(root, l.cluster, d)))
  {
    var c := Program(l.cluster, around.programs);
    assert Synced(root, l.cluster, d) <==> Synced(root, c, d);
    var r := RecordOnService(root, c, o);
    RecordSyncs(root, c, o, d);
    ApplySyncs(root, l.(cluster := r), o, around, d);
    var out := Iterate(root, ds, l, o, around);
    assert ClusterOf(out) == c || out == Apply(root, l.(cluster := r), o, around);
  }

  lemma {:induction false} RecordSyncs(root: Root, c: Cluster, o: Object, d: Object)
    requires PlainRoot(root)
    ensures Synced(root, c, d) ==> Synced(root, RecordOnService(root, c, o), d)
  {
  }

  lemma {:induction false} ApplySyncs(root: Root, l: Loop, o: Object, around: Around, d: Object)
    requires PlainRoot(root) && (d.key == o.key ==> d == o)
    ensures var out := Apply(root, l, o, around);
      && (Synced(root, l.cluster, d) ==> Synced(root, ClusterOf(out), d))
      && (out.Running? && out.loop.created + out.loop.updated != l.created + l.updated ==>
            && out.loop.created + out.loop.updated == l.created + l.updated + 1
            && (d == o ==> Synced(root, out.loop.cluster, d) && !Synced(root, l.cluster, d)))
  {
    if root.Route? {
      MergeKeepsOtherRoutes("", root.routeRef);
      if o.key in l.cluster {
        MergeKeepsOtherRoutes(l.cluster[o.key].routes, root.routeRef);
      }
    }
  }

  lemma {:induction false} PassCounts(root: Root, ds: seq<Object>, i: nat, l: Loop, arounds: seq<Around>)
    requires PlainRoot(root) && DistinctKeys(ds) && i <= |ds| == |arounds|
    ensures var out := EnforceFrom(root, ds, i, l, arounds);
      Unsynced(root, ds, ClusterOf(out)) + (if out.Running? then out.loop.created + out.loop.updated else 0)
        <= Unsynced(root, ds, l.cluster) + l.created + l.updated
    decreases |ds| - i
  {
    if i < |ds| {
      var out := Iterate(root, ds, l, ds[i], arounds[i]);
      forall d | d in ds
        ensures Synced(root, l.cluster, d) ==> Synced(root, ClusterOf(out), d)
      {
        IterateSyncs(root, ds, l, ds[i], arounds[i], d);
      }
      IterateSyncs(root, ds, l, ds[i], arounds[i], ds[i]);
      UnsyncedMonotone(root, ds, l.cluster, ClusterOf(out));
      if out.Running? {
        PassCounts(root, ds, i + 1, out.loop, arounds);
      }
    }
  }

  /** A pass over a settled cluster either writes something, and then fewer objects are left to
      enforce, or reports neither work nor waiting, and then every desired object is in place. */
  lemma {:induction false} QuietPassProgresses(root: Root, ds: seq<Object>, c: Cluster, arounds: seq<Around>)
    requires PlainRoot(root) && WellOrdered(ds) && Settled(c) && |ds| == |arounds| && Quiet(arounds)
    ensures var out := Enforce(root, ds, c, arounds);
      && out.Running?
      && var applied, waiting := out.loop.created + out.loop.updated > 0, out.loop.skipped > 0;
      && (waiting ==> applied)
      && (!applied <==> AllSynced(root, ds, c))
      && (!applied ==> out.loop.cluster == c)
      && (applied ==> Unsynced(root, ds, out.loop.cluster) < Unsynced(root, ds, c))
  {
    QuietPassFrom(root, ds, c, 0, Start(c), 0, arounds);
    PassCounts(root, ds, 0, Start(c), arounds);
    UnsyncedZero(root, ds, c);
  }

  // ---------------------------------------------------------------- convergence

  /** A pass, after which Konnect programs everything there is. */
  function Round(root: Root, ds: seq<Object>, c: Cluster, arounds: seq<Around>): Cluster
    requires |ds| == |arounds|
  {
    var d := ClusterOf(Enforce(root, ds, c, arounds));
    Program(d, d.Keys)
  }

  function Rounds(root: Root, ds: seq<Object>, c: Cluster, rounds: seq<seq<Around>>): Cluster
    requires forall r :: r in rounds ==> |r| == |ds|
    decreases |rounds|
  {
    if rounds == [] then c
    else
      assert rounds[0] in rounds && forall r :: r in rounds[1..] ==> r in rounds;
      Rounds(root, ds, Round(root, ds, c, rounds[0]), rounds[1..])
  }

  predicate Alive(c: Cluster) {
    forall k :: k in c ==> !c[k].deleting && c[k].obj.key == k
  }

  lemma {:induction false} PassKeepsAlive(root: Root, ds: seq<Object>, i: nat, l: Loop, arounds: seq<Around>)
    requires i <= |ds| == |arounds| && Alive(l.cluster)
    ensures Alive(ClusterOf(EnforceFrom(root, ds, i, l, arounds)))
    decreases |ds| - i
  {
    if i < |ds| {
      var out := Iterate(root, ds, l, ds[i], arounds[i]);
      IterateKeepsAlive(root, ds, l, ds[i], arounds[i]);
      if out.Running? {
        PassKeepsAlive(root, ds, i + 1, out.loop, arounds);
      }
    }
  }

  lemma {:induction false} IterateKeepsAlive(root: Root, ds: seq<Object>, l: Loop, o: Object, around: Around)
    requires Alive(l.cluster)
    ensures Alive(ClusterOf(Iterate(root, ds, l, o, around)))
  {
    var c := Program(l.cluster, around.programs);
    var r := RecordOnService(root, c, o);
    assert Alive(c);
    RecordWrites(root, c, o);
    assert Alive(r);
    ApplyKeepsAlive(root, l.(cluster := r), o, around);
    var out := Iterate(root, ds, l, o, around);
    hide Alive, RecordOnService, Apply, GateOf, ServiceToRecordOn, Program;
    assert ClusterOf(out) == c || out == Apply(root, l.(cluster := r), o, around);
  }

  lemma {:induction false} ApplyKeepsAlive(root: Root, l: Loop, o: Object, around: Around)
    requires Alive(l.cluster)
    ensures Alive(ClusterOf(Apply(root, l, o, around)))
  {
  }

  /** Enforcement converges: after as many undisturbed rounds as there are objects to enforce,
      every desired object is in place, and it stays so. */
  lemma {:induction false} EnforcementConverges(root: Root, ds: seq<Object>, c: Cluster, rounds: seq<seq<Around>>)
    requires PlainRoot(root) && WellOrdered(ds) && Settled(c)
    requires forall r :: r in rounds ==> |r| == |ds| && Quiet(r)
    requires |rounds| >= Unsynced(root, ds, c)
    ensures AllSynced(root, ds, Rounds(root, ds, c, rounds))
    decreases |rounds|
  {
    UnsyncedZero(root, ds, c);
    if rounds != [] {
      assert rounds[0] in rounds && forall r :: r in rounds[1..] ==> r in rounds;
      QuietPassProgresses(root, ds, c, rounds[0]);
      PassKeepsAlive(root, ds, 0, Start(c), rounds[0]);
      var d := Enforce(root, ds, c, rounds[0]).loop.cluster;
      var next := Round(root, ds, c, rounds[0]);
      assert Alive(d) && next == Program(d, d.Keys) && Settled(next);
      UnsyncedMonotone(root, ds, d, next);
      EnforcementConverges(root, ds, next, rounds[1..]);
    }
  }
}
