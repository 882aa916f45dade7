/**
 State enforcement of the hybrid gateway: the ordered apply loop that creates and updates the
 Kong resources translated from one Route, gated on what is Programmed in Konnect.
 */
module HybridState {
  import opened Wrappers
  import opened Annotations

  datatype Kind = KongUpstream | KongCertificate | KongReferenceGrant | KongService | KongRoute | KongTarget
                | KongPlugin | KongPluginBinding | KongSNI

  datatype Key = Key(kind: Kind, namespace: string, name: string)

  /** A desired object.  The references are the spec fields the gates look at, "" when absent;
      `body` stands for the rest of the spec. */
  datatype Object = Object(key: Key, host: string, clientCertificate: string, upstreamRef: string,
                           serviceRef: string, bindsRoute: string, bindsService: string, bindsKongService: bool,
                               body: int)

  /** An object in the cluster; `routes` is its hybrid-routes annotation, "" when absent. */
  datatype Existing = Existing(obj: Object, routes: string, programmed: bool, deleting: bool)

  type Cluster = map<Key, Existing>

  /** Whether the root is a Route, which is recorded on every object, or a Gateway, which is not. */
  datatype Root = Gateway | Route(routeRef: string)

  /** What happens around one iteration: Konnect programs some objects before it, reads of some
      keys fail, and the two writes of an iteration may fail. */
  datatype Around = Around(programs: set<Key>, unreadable: set<Key>, recordFails: bool, applyFails: bool)

  function Sibling(o: Object, kind: Kind, name: string): Key {
    Key(kind, o.key.namespace, name)
  }

  function Program(c: Cluster, ks: set<Key>): Cluster {
    map k | k in c :: if k in ks then c[k].(programmed := true) else c[k]
  }

  predicate UpstreamDesired(ds: seq<Object>, name: string) {
    exists d :: d in ds && d.key.kind.KongUpstream? && d.key.name == name
  }

  function TargetsOf(ds: seq<Object>, upstream: string): seq<Object> {
    if ds == [] then []
    else if ds[0].key.kind.KongTarget? && ds[0].upstreamRef == upstream && upstream != "" then
      [ds[0]] + TargetsOf(ds[1..], upstream)
    else TargetsOf(ds[1..], upstream)
  }

  datatype Gate = Pass | WaitFor(kind: Kind) | Abort

  predicate Ready(c: Cluster, k: Key, unreadable: set<Key>) {
    k in c && k !in unreadable && c[k].programmed
  }

  /** Every target is there and Programmed; a read that fails aborts the pass. */
  function TargetsGate(targets: seq<Object>, c: Cluster, unreadable: set<Key>): Gate {
    if targets == [] then Pass
    else if targets[0].key in unreadable then Abort
    else if targets[0].key !in c || !c[targets[0].key].programmed then WaitFor(KongTarget)
    else TargetsGate(targets[1..], c, unreadable)
  }

  function UpstreamGate(ds: seq<Object>, c: Cluster, o: Object, unreadable: set<Key>): Gate {
    if o.host == "" || !UpstreamDesired(ds, o.host) then Pass
    else if !Ready(c, Sibling(o, KongUpstream, o.host), unreadable) then WaitFor(KongUpstream)
    else TargetsGate(TargetsOf(ds, o.host), c, unreadable)
  }

  function ServiceGate(c: Cluster, o: Object, unreadable: set<Key>): Gate {
    if o.serviceRef == "" then Pass
    else
      var k := Sibling(o, KongService, o.serviceRef);
      if !Ready(c, k, unreadable) || c[k].deleting then WaitFor(KongService) else Pass
  }

  function ReferenceGate(c: Cluster, o: Object, kind: Kind, name: string, unreadable: set<Key>): Gate {
    if name != "" && !Ready(c, Sibling(o, kind, name), unreadable) then WaitFor(kind) else Pass
  }

  function BindingGate(c: Cluster, o: Object, unreadable: set<Key>): Gate {
    var route := ReferenceGate(c, o, KongRoute, o.bindsRoute, unreadable);
    if !route.Pass? then route
    else if o.bindsKongService then ReferenceGate(c, o, KongService, o.bindsService, unreadable)
    else Pass
  }

  /** The dependency gate of one desired object. */
  function GateOf(ds: seq<Object>, c: Cluster, o: Object, unreadable: set<Key>): Gate {
    match o.key.kind
    case KongService =>
      var upstream := UpstreamGate(ds, c, o, unreadable);
      if !upstream.Pass? then upstream else ReferenceGate(c, o, KongCertificate, o.clientCertificate, unreadable)
    case KongTarget => ReferenceGate(c, o, KongUpstream, o.upstreamRef, unreadable)
    case KongRoute => ServiceGate(c, o, unreadable)
    case KongPluginBinding => BindingGate(c, o, unreadable)
    case _ => Pass
  }

  /** The KongService on which a KongRoute must record its Route before it is applied. */
  function ServiceToRecordOn(root: Root, c: Cluster, o: Object): Option<Key> {
    var k := Sibling(o, KongService, o.serviceRef);
    if root.Route? && o.key.kind.KongRoute? && o.serviceRef != "" && k in c
        && Merged(c[k].routes, root.routeRef) != c[k].routes
    then Some(k) else None
  }

  function RecordOnService(root: Root, c: Cluster, o: Object): Cluster {
    match ServiceToRecordOn(root, c, o)
    case Some(k) => if k in c && root.Route? then c[k := c[k].(routes := Merged(c[k].routes, root.routeRef))] else c
    case None => c
  }

  function MergedRoutes(root: Root, live: string): string {
    match root
    case Gateway => live
    case Route(r) => Merged(live, r)
  }

  /** The object is in the cluster as desired, annotation included. */
  predicate Synced(root: Root, c: Cluster, o: Object) {
    o.key in c && !c[o.key].deleting && c[o.key].obj == o && c[o.key].routes == MergedRoutes(root, c[o.key].routes)
  }

  /** The state of the loop. */
  datatype Loop = Loop(cluster: Cluster, stopAt: Option<Kind>, created: nat, updated: nat, skipped: nat)

  /** How the loop or one iteration ends: the pass goes on, or it fails leaving the cluster as it is. */
  datatype Outcome = Running(loop: Loop) | Failed(cluster: Cluster)

  function ClusterOf(out: Outcome): Cluster {
    match out case Running(l) => l.cluster case Failed(c) => c
  }

  function Apply(root: Root, l: Loop, o: Object, around: Around): Outcome {
    var c := l.cluster;
    if o.key in around.unreadable then Failed(c)
    else if o.key in c && c[o.key].deleting then Running(l.(skipped := l.skipped + 1, stopAt := Some(o.key.kind)))
    else if around.applyFails then Failed(c)
    else if o.key !in c then
      Running(l.(cluster := c[o.key := Existing(o, MergedRoutes(root, ""), false, false)],
                 created := l.created + 1, stopAt := Some(o.key.kind)))
    else if Synced(root, c, o) then Running(l)
    else
      Running(l.(cluster := c[o.key := c[o.key].(obj := o, routes := MergedRoutes(root, c[o.key].routes))],
                 updated := l.updated + 1))
  }

  /** One iteration of the loop. */
  function Iterate(root: Root, ds: seq<Object>, l0: Loop, o: Object, around: Around): Outcome {
    var l := l0.(cluster := Program(l0.cluster, around.programs));
    if l.stopAt.Some? && l.stopAt.value != o.key.kind then Running(l.(skipped := l.skipped + 1))
    else
      match GateOf(ds, l.cluster, o, around.unreadable)
      case Abort => Failed(l.cluster)
      case WaitFor(kind) => Running(l.(skipped := l.skipped + 1, stopAt := Some(kind)))
      case Pass =>
        if ServiceToRecordOn(root, l.cluster, o).Some? && around.recordFails then Failed(l.cluster)
        else Apply(root, l.(cluster := RecordOnService(root, l.cluster, o)), o, around)
  }

  /** The loop from position `i` on. */
  function EnforceFrom(root: Root, ds: seq<Object>, i: nat, l: Loop, arounds: seq<Around>): Outcome
    requires i <= |ds| == |arounds|
    decreases |ds| - i
  {
    if i == |ds| then Running(l)
    else
      match Iterate(root, ds, l, ds[i], arounds[i])
      case Failed(c) => Failed(c)
      case Running(l') => EnforceFrom(root, ds, i + 1, l', arounds)
  }

  function Start(c: Cluster): Loop {
    Loop(c, None, 0, 0, 0)
  }

  function Enforce(root: Root, ds: seq<Object>, c: Cluster, arounds: seq<Around>): Outcome
    requires |ds| == |arounds|
  {
    EnforceFrom(root, ds, 0, Start(c), arounds)
  }

  /** The hybrid gateway's view of the cluster it writes to. */
  class ClusterClient {
    var objects: Cluster

    constructor (objects: Cluster)
      ensures this.objects == objects
    {
      this.objects := objects;
    }

    /** upstreamTargetsProgrammed. */
    method UpstreamTargetsProgrammed(targets: seq<Object>, unreadable: set<Key>) returns (ready: bool, ok: bool)
      ensures TargetsGate(targets, objects, unreadable) ==
        if !ok then Abort else if ready then Pass else WaitFor(KongTarget)
    {
      for i := 0 to |targets|
        invariant TargetsGate(targets, objects, unreadable) == TargetsGate(targets[i..], objects, unreadable)
      {
        var t := targets[i];
        assert targets[i..][1..] == targets[i + 1..];
        if t.key in unreadable {
          return false, false;
        }
        if t.key !in objects || !objects[t.key].programmed {
          return false, true;
        }
      }
      return true, true;
    }

    /** The lookup tables built once per pass. */
    method BuildLookups(ds: seq<Object>) returns (upstreams: set<string>, targets: map<string, seq<Object>>)
      ensures forall n :: n in upstreams <==> UpstreamDesired(ds, n)
      ensures forall n :: (if n in targets then targets[n] else []) == TargetsOf(ds, n)
    {
      upstreams, targets := {}, map[];
      assert ds[..0] == [] && forall n :: TargetsOf([], n) == [] && !UpstreamDesired([], n);
      hide TargetsOf, UpstreamDesired;
      for i := 0 to |ds|
        invariant forall n :: n in upstreams <==> UpstreamDesired(ds[..i], n)
        invariant forall n :: (if n in targets then targets[n] else []) == TargetsOf(ds[..i], n)
      {
        var d := ds[i];
        assert ds[..i + 1] == ds[..i] + [d];
        OneMoreDesired(ds[..i], d);
        if d.key.kind.KongUpstream? {
          upstreams := upstreams + {d.key.name};
        } else if d.key.kind.KongTarget? && d.upstreamRef != "" {
          targets := targets[d.upstreamRef := (if d.upstreamRef in targets then targets[d.upstreamRef] else []) + [d]];
        }
      }
      assert ds[..|ds|] == ds;
    }

    /** One read: the object is there and Programmed; a read that fails counts as not there. */
    method IsReady(k: Key, unreadable: set<Key>) returns (ready: bool)
      ensures ready <==> Ready(objects, k, unreadable)
    {
      if k in unreadable || k !in objects {
        return false;
      }
      return objects[k].programmed;
    }

    /** The gate of one object, read by read. */
    method CheckGate(ds: seq<Object>, upstreams: set<string>, targets: map<string, seq<Object>>, o: Object,
                     unreadable: set<Key>)
      returns (gate: Gate)
      requires forall n :: n in upstreams <==> UpstreamDesired(ds, n)
      requires forall n :: (if n in targets then targets[n] else []) == TargetsOf(ds, n)
      ensures gate == GateOf(ds, objects, o, unreadable)
    {
      match o.key.kind {
        case KongService =>
          if o.host != "" && o.host in upstreams {
            var there := IsReady(Sibling(o, KongUpstream, o.host), unreadable);
            if !there {
              return WaitFor(KongUpstream);
            }
            var ready, ok := UpstreamTargetsProgrammed(if o.host in targets then targets[o.host] else [], unreadable);
            if !ok {
              return Abort;
            }
            if !ready {
              return WaitFor(KongTarget);
            }
          }
          if o.clientCertificate != "" {
            var ready := IsReady(Sibling(o, KongCertificate, o.clientCertificate), unreadable);
            if !ready {
              return WaitFor(KongCertificate);
            }
          }
        case KongTarget =>
          if o.upstreamRef != "" {
            var ready := IsReady(Sibling(o, KongUpstream, o.upstreamRef), unreadable);
            if !ready {
              return WaitFor(KongUpstream);
            }
          }
        case KongRoute =>
          if o.serviceRef != "" {
            var service := Sibling(o, KongService, o.serviceRef);
            var ready := IsReady(service, unreadable);
            if !ready || objects[service].deleting {
              return WaitFor(KongService);
            }
          }
        case KongPluginBinding =>
          if o.bindsRoute != "" {
            var ready := IsReady(Sibling(o, KongRoute, o.bindsRoute), unreadable);
            if !ready {
              return WaitFor(KongRoute);
            }
          }
          if o.bindsKongService && o.bindsService != "" {
            var ready := IsReady(Sibling(o, KongService, o.bindsService), unreadable);
            if !ready {
              return WaitFor(KongService);
            }
          }
        case _ =>
      }
      gate := Pass;
    }

    /** Creates or updates one object; false when a read or the write failed. */
    method ApplyObject(root: Root, o: Object, around: Around, ghost l: Loop)
      returns (ok: bool, created: bool, updated: bool, skipped: bool)
      requires l.cluster == objects
      modifies this
      ensures ClusterOf(Apply(root, l, o, around)) == objects
      ensures ok <==> Apply(root, l, o, around).Running?
      ensures ok ==>
        Apply(root, l, o, around).loop ==
          Loop(objects, if created || skipped then Some(o.key.kind) else l.stopAt,
               l.created + (if created then 1 else 0), l.updated + (if updated then 1 else 0),
               l.skipped + (if skipped then 1 else 0))
    {
      ok, created, updated, skipped := true, false, false, false;
      if o.key in around.unreadable {
        ok := false;
      } else if o.key in objects && objects[o.key].deleting {
        skipped := true;
      } else if around.applyFails {
        ok := false;
      } else if o.key !in objects {
        objects := objects[o.key := Existing(o, MergedRoutes(root, ""), false, false)];
        created := true;
      } else {
        var live := objects[o.key];
        var routes := MergedRoutes(root, live.routes);
        if live.obj != o || live.routes != routes {
          objects := objects[o.key := live.(obj := o, routes := routes)];
          updated := true;
        }
      }
    }

    /** enforceState: `ok` is false when the pass ended with an error. */
    method EnforceState(root: Root, ds: seq<Object>, arounds: seq<Around>)
      returns (applied: bool, waiting: bool, ok: bool)
      requires |ds| == |arounds|
      modifies this
      ensures objects == ClusterOf(Enforce(root, ds, old(objects), arounds))
      ensures match Enforce(root, ds, old(objects), arounds)
              case Failed(_) => !ok && !applied && !waiting
              case Running(l) => ok && (applied <==> l.created + l.updated > 0) && (waiting <==> l.skipped > 0)
    {
      hide GateOf, MergedRoutes, TargetsOf, UpstreamDesired, Apply, Program, ServiceToRecordOn;
      if |ds| == 0 {
        return false, false, true;
      }
      var upstreams, targets := BuildLookups(ds);
      ghost var was := objects;
      var created, updated, skipped: nat := 0, 0, 0;
      var stopAt: Option<Kind> := None;
      for i := 0 to |ds|
        invariant Enforce(root, ds, was, arounds) ==
            EnforceFrom(root, ds, i, Loop(objects, stopAt, created, updated, skipped), arounds)
      {
        var o, around := ds[i], arounds[i];
        ghost var l := Loop(objects, stopAt, created, updated, skipped);
        objects := Program(objects, around.programs);
        if stopAt.Some? && o.key.kind != stopAt.value {
          skipped := skipped + 1;
          continue;
        }
        var gate := CheckGate(ds, upstreams, targets, o, around.unreadable);
        if gate.Abort? {
          return false, false, false;
        }
        if gate.WaitFor? {
          skipped := skipped + 1;
          stopAt := Some(gate.kind);
          continue;
        }
        var record := ServiceToRecordOn(root, objects, o);
        if record.Some? {
          if around.recordFails {
            return false, false, false;
          }
          objects := RecordOnService(root, objects, o);
        }
        ghost var before := Loop(objects, stopAt, created, updated, skipped);
        var done, c, u, s := ApplyObject(root, o, around, before);
        if !done {
          return false, false, false;
        }
        if c || s {
          stopAt := Some(o.key.kind);
        }
        created := created + (if c then 1 else 0);
        updated := updated + (if u then 1 else 0);
        skipped := skipped + (if s then 1 else 0);
      }
      return created + updated > 0, skipped > 0, true;
    }
  }

  predicate IsTargetFor(d: Object, n: string) {
    d.key.kind.KongTarget? && d.upstreamRef == n && n != ""
  }

  /** What one more desired object changes about the targets and upstreams of each name. */
  lemma {:induction false} OneMoreDesired(ds: seq<Object>, d: Object)
    ensures forall n :: TargetsOf(ds + [d], n) == TargetsOf(ds, n) + if IsTargetFor(d, n) then [d] else []
    ensures forall n :: UpstreamDesired(ds + [d], n) <==>
          UpstreamDesired(ds, n) || (d.key.kind.KongUpstream? && d.key.name == n)
  {
    forall n ensures TargetsOf(ds + [d], n) == TargetsOf(ds, n) + if IsTargetFor(d, n) then [d] else [] {
      TargetsOfConcat(ds, [d], n);
      assert [d][1..] == [];
    }
    forall n ensures UpstreamDesired(ds + [d], n) <==>
          UpstreamDesired(ds, n) || (d.key.kind.KongUpstream? && d.key.name == n) {
      assert forall e :: e in ds + [d] <==> e in ds || e == d;
    }
  }

  lemma {:induction false} TargetsOfConcat(a: seq<Object>, b: seq<Object>, n: string)
    ensures TargetsOf(a + b, n) == TargetsOf(a, n) + TargetsOf(b, n)
  {
    if a == [] {
      assert a + b == b;
    } else {
      assert (a + b)[1..] == a[1..] + b;
      TargetsOfConcat(a[1..], b, n);
    }
  }
}
