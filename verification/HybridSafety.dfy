/**
 What every run of the enforcement loop keeps, and why the loop finishes.
 */
module HybridSafety {
  import opened HybridState

  predicate Programmed(c: Cluster, k: Key) {
    k in c && c[k].programmed
  }

  /** Everything the gates make `o` wait for is there and Programmed. */
  predicate DependenciesProgrammed(ds: seq<Object>, c: Cluster, o: Object) {
    match o.key.kind
    case KongService =>
      && (o.host != "" && UpstreamDesired(ds, o.host) ==>
            && Programmed(c, Sibling(o, KongUpstream, o.host))
            && forall t :: t in TargetsOf(ds, o.host) ==> Programmed(c, t.key))
      && (o.clientCertificate != "" ==> Programmed(c, Sibling(o, KongCertificate, o.clientCertificate)))
    case KongTarget => o.upstreamRef != "" ==> Programmed(c, Sibling(o, KongUpstream, o.upstreamRef))
    case KongRoute => o.serviceRef != "" ==> Programmed(c, Sibling(o, KongService, o.serviceRef))
    case KongPluginBinding =>
      && (o.bindsRoute != "" ==> Programmed(c, Sibling(o, KongRoute, o.bindsRoute)))
      && (o.bindsKongService && o.bindsService != "" ==> Programmed(c, Sibling(o, KongService, o.bindsService)))
    case _ => true
  }

  /** No object exists before what it depends on is Programmed. */
  predicate Safe(ds: seq<Object>, c: Cluster) {
    forall k :: k in c ==> c[k].obj.key == k && DependenciesProgrammed(ds, c, c[k].obj)
  }

  /** `d` has at least the objects of `c`, and what was Programmed stays so. */
  predicate Grows(c: Cluster, d: Cluster) {
    forall k :: k in c ==> k in d && (c[k].programmed ==> d[k].programmed)
  }

  lemma {:induction false} TargetsGatePasses(targets: seq<Object>, c: Cluster, unreadable: set<Key>)
    requires TargetsGate(targets, c, unreadable).Pass?
    ensures forall t :: t in targets ==> Programmed(c, t.key)
  {
    if targets != [] {
      TargetsGatePasses(targets[1..], c, unreadable);
    }
  }

  /** The gates are sound: an object that passes has its dependencies. */
  lemma {:induction false} GatePassImpliesDependencies(ds: seq<Object>, c: Cluster, o: Object, unreadable: set<Key>)
    requires GateOf(ds, c, o, unreadable).Pass?
    ensures DependenciesProgrammed(ds, c, o)
  {
    if o.key.kind.KongService? && o.host != "" && UpstreamDesired(ds, o.host) {
      TargetsGatePasses(TargetsOf(ds, o.host), c, unreadable);
    }
  }

  lemma {:induction false} DependenciesPersist(ds: seq<Object>, c: Cluster, d: Cluster, o: Object)
    requires Grows(c, d) && DependenciesProgrammed(ds, c, o)
    ensures DependenciesProgrammed(ds, d, o)
  {
  }

  /** `d` keeps the objects of `c` and may hold one more or changed object, `o`. */
  predicate Writes(c: Cluster, d: Cluster, o: Object) {
    Grows(c, d) && forall k :: k in d ==> (k in c && d[k].obj == c[k].obj) || (k == o.key && d[k].obj == o)
  }

  lemma {:induction false} RecordWrites(root: Root, c: Cluster, o: Object)
    ensures var d := RecordOnService(root, c, o);
      && d.Keys == c.Keys
      && forall k :: k in c ==>
             d[k].obj == c[k].obj && d[k].programmed == c[k].programmed && d[k].deleting == c[k].deleting
  {
  }

  lemma {:induction false} ApplyWrites(root: Root, l: Loop, o: Object, around: Around)
    ensures Writes(l.cluster, ClusterOf(Apply(root, l, o, around)), o)
  {
  }

  /** What one iteration may write: the one object, and only behind its gate. */
  lemma {:induction false} IterateWrites(root: Root, ds: seq<Object>, l: Loop, o: Object, around: Around)
    ensures var c := Program(l.cluster, around.programs);
      var d := ClusterOf(Iterate(root, ds, l, o, around));
      && Grows(l.cluster, c) && Grows(c, d)
      && (forall k :: k in d ==>
             (k in l.cluster && d[k].obj == l.cluster[k].obj)
             || (k == o.key && d[k].obj == o && GateOf(ds, c, o, around.unreadable).Pass?))
  {
    var c := Program(l.cluster, around.programs);
    var r := RecordOnService(root, c, o);
    RecordWrites(root, c, o);
    ApplyWrites(root, l.(cluster := r), o, around);
    ProgramWrites(l.cluster, around.programs);
    var out := Iterate(root, ds, l, o, around);
    hide GateOf, RecordOnService, Apply, ServiceToRecordOn, Program;
    assert ClusterOf(out) == c
        || (out == Apply(root, l.(cluster := r), o, around) && GateOf(ds, c, o, around.unreadable).Pass?);
  }

  lemma {:induction false} ProgramWrites(c: Cluster, ks: set<Key>)
    ensures var d := Program(c, ks); d.Keys == c.Keys && Grows(c, d) && forall k :: k in d ==> d[k].obj == c[k].obj
  {
  }

  lemma {:induction false} IterateKeepsSafe(root: Root, ds: seq<Object>, l: Loop, o: Object, around: Around)
    requires Safe(ds, l.cluster)
    ensures var d := ClusterOf(Iterate(root, ds, l, o, around)); Safe(ds, d) && Grows(l.cluster, d)
  {
    var d := ClusterOf(Iterate(root, ds, l, o, around));
    var c := Program(l.cluster, around.programs);
    IterateWrites(root, ds, l, o, around);
    SafeAfterWrite(ds, l.cluster, c, d, o, around.unreadable);
  }

  lemma {:induction false} SafeAfterWrite(ds: seq<Object>, b: Cluster, c: Cluster, d: Cluster, o: Object,
                                          unreadable: set<Key>)
    requires Safe(ds, b) && Grows(b, c) && Grows(c, d)
    requires forall k :: k in d ==>
          (k in b && d[k].obj == b[k].obj) || (k == o.key && d[k].obj == o && GateOf(ds, c, o, unreadable).Pass?)
    ensures Safe(ds, d) && Grows(b, d)
  {
    forall k | k in d
      ensures d[k].obj.key == k && DependenciesProgrammed(ds, d, d[k].obj)
    {
      if k in b && d[k].obj == b[k].obj {
        DependenciesPersist(ds, b, d, d[k].obj);
      } else {
        GatePassImpliesDependencies(ds, c, o, unreadable);
        DependenciesPersist(ds, c, d, o);
      }
    }
  }

  lemma {:induction false} EnforceKeepsSafe(root: Root, ds: seq<Object>, i: nat, l: Loop, arounds: seq<Around>)
    requires i <= |ds| == |arounds| && Safe(ds, l.cluster)
    ensures var d := ClusterOf(EnforceFrom(root, ds, i, l, arounds)); Safe(ds, d) && Grows(l.cluster, d)
    decreases |ds| - i
  {
    if i < |ds| {
      IterateKeepsSafe(root, ds, l, ds[i], arounds[i]);
      match Iterate(root, ds, l, ds[i], arounds[i])
      case Failed(_) =>
      case Running(l') => EnforceKeepsSafe(root, ds, i + 1, l', arounds);
    }
  }

  /** What may happen: a pass, complete or cut short by an error, or Konnect programming objects. */
  datatype Event = Pass(arounds: seq<Around>) | KonnectPrograms(keys: set<Key>)

  predicate IsRun(ds: seq<Object>, es: seq<Event>) {
    forall e :: e in es && e.Pass? ==> |e.arounds| == |ds|
  }

  function After(root: Root, ds: seq<Object>, c: Cluster, es: seq<Event>): Cluster
    requires IsRun(ds, es)
    decreases |es|
  {
    if es == [] then c
    else
      var e := es[0];
      assert e in es;
      var d := match e
        case Pass(arounds) => ClusterOf(Enforce(root, ds, c, arounds))
        case KonnectPrograms(keys) => Program(c, keys);
      assert forall x :: x in es[1..] ==> x in es;
      After(root, ds, d, es[1..])
  }

  lemma {:induction false} RunKeepsSafe(root: Root, ds: seq<Object>, c: Cluster, es: seq<Event>)
    requires IsRun(ds, es) && Safe(ds, c)
    ensures Safe(ds, After(root, ds, c, es))
    decreases |es|
  {
    if es != [] {
      assert es[0] in es && forall x :: x in es[1..] ==> x in es;
      match es[0]
      case Pass(arounds) =>
        EnforceKeepsSafe(root, ds, 0, Start(c), arounds);
        RunKeepsSafe(root, ds, ClusterOf(Enforce(root, ds, c, arounds)), es[1..]);
      case KonnectPrograms(keys) =>
        var d := Program(c, keys);
        forall k | k in d ensures DependenciesProgrammed(ds, d, d[k].obj) {
          DependenciesPersist(ds, c, d, c[k].obj);
        }
        RunKeepsSafe(root, ds, d, es[1..]);
    }
  }

  /** From an empty cluster, in every reachable state a KongRoute exists only over a Programmed
      KongService, and a KongService whose host is a desired upstream exists only over that
      Programmed upstream and all its desired targets, Programmed too. */
  lemma {:induction false} RoutesOnlyOverServableBackends(root: Root, ds: seq<Object>, es: seq<Event>, k: Key)
    requires IsRun(ds, es) && k in After(root, ds, map[], es)
    ensures var c := After(root, ds, map[], es); var o := c[k].obj;
      && (k.kind.KongRoute? && o.serviceRef != "" ==> Programmed(c, Key(KongService, k.namespace, o.serviceRef)))
      && (k.kind.KongService? && o.host != "" && UpstreamDesired(ds, o.host) ==>
            && Programmed(c, Key(KongUpstream, k.namespace, o.host))
            && forall t :: t in ds && t.key.kind.KongTarget? && t.upstreamRef == o.host ==> Programmed(c, t.key))
      && (k.kind.KongTarget? && o.upstreamRef != "" ==> Programmed(c, Key(KongUpstream, k.namespace, o.upstreamRef)))
  {
    RunKeepsSafe(root, ds, map[], es);
    var c := After(root, ds, map[], es);
    forall t | t in ds && t.key.kind.KongTarget? && t.upstreamRef == c[k].obj.host && c[k].obj.host != ""
      ensures t in TargetsOf(ds, c[k].obj.host)
    {
      TargetsOfContains(ds, c[k].obj.host, t);
    }
  }

  lemma {:induction false} TargetsOfContains(ds: seq<Object>, n: string, t: Object)
    ensures t in TargetsOf(ds, n) <==> t in ds && t.key.kind.KongTarget? && t.upstreamRef == n && n != ""
  {
    if ds != [] {
      TargetsOfContains(ds[1..], n, t);
      assert t in ds <==> t == ds[0] || t in ds[1..];
    }
  }
}
