/**
 What a pass of the enforcement may touch, said on the fields of the cluster: no other Route's entry is
 ever lost, nothing is written without what it depends on, and a creation holds back what follows.
 */
module HybridFrame {
  import opened Wrappers
  import opened Strings
  import opened Annotations
  import opened HybridState
  import opened HybridSafety
  import opened HybridProgress

  /** The list `b` names every Route that `a` names and, besides, at most the root itself. */
  predicate Grown(root: Root, a: string, b: string) {
    && (forall e :: e in Split(a, ',') && e != "" ==> e in Split(b, ','))
    && (forall e :: e in Split(b, ',') && e != "" ==> e in Split(a, ',') || (root.Route? && e == root.routeRef))
    && (root.Gateway? ==> b == a)
  }

  /** An object that was there stays, with its entries; its spec changes only to a desired one, and not
      while it is being deleted; it is Programmed only by Konnect. */
  predicate Kept(root: Root, ds: seq<Object>, programs: set<Key>, k: Key, was: Existing, now: Existing) {
    && now.deleting == was.deleting && Grown(root, was.routes, now.routes)
    && (now.obj == was.obj || (now.obj in ds && now.obj.key == k && !was.deleting))
    && (was.programmed ==> now.programmed) && (now.programmed ==> was.programmed || k in programs)
  }

  /** A new object is a desired one, records the root, and is not Programmed by the operator. */
  predicate New(root: Root, ds: seq<Object>, programs: set<Key>, k: Key, now: Existing) {
    && now.obj in ds && now.obj.key == k && !now.deleting && Grown(root, "", now.routes)
    && (root.Route? && root.routeRef != "" ==> root.routeRef in Split(now.routes, ','))
    && (now.programmed ==> k in programs)
  }

  predicate Touched(root: Root, ds: seq<Object>, programs: set<Key>, c: Cluster, d: Cluster) {
    && (forall k :: k in c ==> k in d && Kept(root, ds, programs, k, c[k], d[k]))
    && (forall k :: k in d && k !in c ==> New(root, ds, programs, k, d[k]))
  }

  lemma {:induction false} TouchedNothing(root: Root, ds: seq<Object>, c: Cluster)
    ensures Touched(root, ds, {}, c, c)
  {
  }

  lemma {:induction false} GrownTwice(root: Root, a: string, b: string, c: string)
    requires Grown(root, a, b) && Grown(root, b, c)
    ensures Grown(root, a, c)
  {
    hide Split;
  }

  lemma {:induction false} TouchedTwice(root: Root, ds: seq<Object>, p: set<Key>, q: set<Key>, b: Cluster, c: Cluster,
                                        d: Cluster)
    requires Touched(root, ds, p, b, c) && Touched(root, ds, q, c, d)
    ensures Touched(root, ds, p + q, b, d)
  {
    hide Grown, Split;
    forall k | k in b ensures k in d && Kept(root, ds, p + q, k, b[k], d[k]) {
      GrownTwice(root, b[k].routes, c[k].routes, d[k].routes);
    }
    forall k | k in d && k !in b ensures New(root, ds, p + q, k, d[k]) {
      if k in c {
        GrownTwice(root, "", c[k].routes, d[k].routes);
        EntryStays(root, c[k].routes, d[k].routes);
      }
    }
  }

  lemma {:induction false} EntryStays(root: Root, a: string, b: string)
    requires Grown(root, a, b)
    ensures root.Route? && root.routeRef != "" && root.routeRef in Split(a, ',') ==> root.routeRef in Split(b, ',')
  {
    hide Split;
  }

  lemma {:induction false} MergedGrows(root: Root, list: string)
    requires PlainRoot(root)
    ensures Grown(root, list, MergedRoutes(root, list))
    ensures root.Route? ==> root.routeRef in Split(MergedRoutes(root, list), ',')
  {
    if root.Route? {
      MergeKeepsOtherRoutes(list, root.routeRef);
    }
  }

  lemma {:induction false} SameListGrows(root: Root, list: string)
    ensures Grown(root, list, list)
  {
    hide Split;
  }

  lemma {:induction false} ProgramTouches(root: Root, ds: seq<Object>, c: Cluster, ks: set<Key>)
    ensures Touched(root, ds, ks, c, Program(c, ks))
  {
    hide Grown;
    forall k | k in c ensures Kept(root, ds, ks, k, c[k], Program(c, ks)[k]) {
      SameListGrows(root, c[k].routes);
    }
  }

  lemma {:induction false} RecordTouches(root: Root, ds: seq<Object>, c: Cluster, o: Object)
    requires PlainRoot(root)
    ensures Touched(root, ds, {}, c, RecordOnService(root, c, o))
  {
    hide Grown, Merged;
    var d := RecordOnService(root, c, o);
    forall k | k in c ensures k in d && Kept(root, ds, {}, k, c[k], d[k]) {
      SameListGrows(root, c[k].routes);
      MergedGrows(root, c[k].routes);
    }
  }

  lemma {:induction false} ApplyTouches(root: Root, ds: seq<Object>, l: Loop, o: Object, around: Around)
    requires PlainRoot(root) && o in ds
    ensures Touched(root, ds, {}, l.cluster, ClusterOf(Apply(root, l, o, around)))
  {
    hide Grown, MergedRoutes, Synced;
    var c, d := l.cluster, ClusterOf(Apply(root, l, o, around));
    forall k | k in c ensures k in d && Kept(root, ds, {}, k, c[k], d[k]) {
      SameListGrows(root, c[k].routes);
      MergedGrows(root, c[k].routes);
    }
    MergedGrows(root, "");
  }

  lemma {:induction false} WriteTouches(root: Root, ds: seq<Object>, l: Loop, o: Object, around: Around)
    requires PlainRoot(root) && o in ds
    ensures var r := l.(cluster := RecordOnService(root, l.cluster, o));
      Touched(root, ds, {}, l.cluster, ClusterOf(Apply(root, r, o, around)))
  {
    hide Touched, RecordOnService, Apply, PlainRoot;
    var r := l.(cluster := RecordOnService(root, l.cluster, o));
    RecordTouches(root, ds, l.cluster, o);
    ApplyTouches(root, ds, r, o, around);
    TouchedTwice(root, ds, {}, {}, l.cluster, r.cluster, ClusterOf(Apply(root, r, o, around)));
    var none: set<Key> := {};
    assert none + none == none;
  }

  /** An iteration lets Konnect program, and then writes its object or nothing. */
  lemma {:induction false} IterateWritesOrNot(root: Root, ds: seq<Object>, l: Loop, o: Object, around: Around)
    ensures var c := Program(l.cluster, around.programs);
      var d := ClusterOf(Iterate(root, ds, l, o, around));
      d == c || d == ClusterOf(Apply(root, l.(cluster := RecordOnService(root, c, o)), o, around))
  {
    hide Program, RecordOnService, Apply, GateOf, ServiceToRecordOn;
  }

  lemma {:induction false} IterateTouches(root: Root, ds: seq<Object>, l: Loop, o: Object, around: Around)
    requires PlainRoot(root) && o in ds
    ensures Touched(root, ds, around.programs, l.cluster, ClusterOf(Iterate(root, ds, l, o, around)))
  {
    hide Touched, Program, RecordOnService, Apply, Iterate, PlainRoot;
    var c := Program(l.cluster, around.programs);
    var d := ClusterOf(Iterate(root, ds, l, o, around));
    ProgramTouches(root, ds, l.cluster, around.programs);
    WriteTouches(root, ds, l.(cluster := c), o, around);
    IterateWritesOrNot(root, ds, l, o, around);
    if d != c {
      TouchedTwice(root, ds, around.programs, {}, l.cluster, c, d);
      assert around.programs + {} == around.programs;
    }
  }

  /** What Konnect programs during a pass. */
  function ProgramsOf(arounds: seq<Around>): set<Key> {
    if arounds == [] then {} else arounds[0].programs + ProgramsOf(arounds[1..])
  }

  lemma {:induction false} LoopTouches(root: Root, ds: seq<Object>, i: nat, l: Loop, arounds: seq<Around>)
    requires PlainRoot(root) && i <= |ds| == |arounds|
    ensures Touched(root, ds, ProgramsOf(arounds[i..]), l.cluster, ClusterOf(EnforceFrom(root, ds, i, l, arounds)))
    decreases |ds| - i
  {
    hide Touched, Iterate, PlainRoot;
    TouchedNothing(root, ds, l.cluster);
    if i < |ds| {
      var out := Iterate(root, ds, l, ds[i], arounds[i]);
      var c := ClusterOf(out);
      IterateTouches(root, ds, l, ds[i], arounds[i]);
      assert arounds[i..][1..] == arounds[i + 1..];
      var rest := ProgramsOf(arounds[i + 1..]);
      assert ProgramsOf(arounds[i..]) == arounds[i].programs + rest;
      if out.Running? {
        LoopTouches(root, ds, i + 1, out.loop, arounds);
        TouchedTwice(root, ds, arounds[i].programs, rest, l.cluster, c,
            ClusterOf(EnforceFrom(root, ds, i, l, arounds)));
      } else {
        MoreProgrammed(root, ds, arounds[i].programs, rest, l.cluster, c);
      }
    }
  }

  lemma {:induction false} MoreProgrammed(root: Root, ds: seq<Object>, p: set<Key>, q: set<Key>, c: Cluster, d: Cluster)
    requires Touched(root, ds, p, c, d)
    ensures Touched(root, ds, p + q, c, d)
  {
    hide Grown;
  }

  /** What Konnect programs during a run. */
  function RunPrograms(es: seq<Event>): set<Key> {
    if es == [] then {}
    else (match es[0] case Pass(arounds) => ProgramsOf(arounds) case KonnectPrograms(ks) => ks) + RunPrograms(es[1..])
  }

  lemma {:induction false} RunTouches(root: Root, ds: seq<Object>, c: Cluster, es: seq<Event>)
    requires PlainRoot(root) && IsRun(ds, es)
    ensures Touched(root, ds, RunPrograms(es), c, After(root, ds, c, es))
    decreases |es|
  {
    hide Touched, Enforce, PlainRoot;
    if es == [] {
      TouchedNothing(root, ds, c);
    } else {
      var e, rest := es[0], es[1..];
      assert e in es && forall x :: x in rest ==> x in es;
      var d := match e
        case Pass(arounds) => ClusterOf(Enforce(root, ds, c, arounds))
        case KonnectPrograms(keys) => Program(c, keys);
      var p := match e case Pass(arounds) => ProgramsOf(arounds) case KonnectPrograms(ks) => ks;
      match e {
        case Pass(arounds) => PassTouches(root, ds, c, arounds);
        case KonnectPrograms(keys) => ProgramTouches(root, ds, c, keys);
      }
      RunTouches(root, ds, d, rest);
      TouchedTwice(root, ds, p, RunPrograms(rest), c, d, After(root, ds, d, rest));
    }
  }

  lemma {:induction false} PassTouches(root: Root, ds: seq<Object>, c: Cluster, arounds: seq<Around>)
    requires PlainRoot(root) && |ds| == |arounds|
    ensures Touched(root, ds, ProgramsOf(arounds), c, ClusterOf(Enforce(root, ds, c, arounds)))
  {
    LoopTouches(root, ds, 0, Start(c), arounds);
    assert arounds[0..] == arounds;
  }

  // ---------------------------------------------------------------- main results

  /** Shared objects survive: over any run, whatever fails in it and whatever the cluster held before, an
      object stays, and so does every Route its annotation names; at most the root is added, and nothing at
      all for a Gateway.  A deleting object keeps its spec, and only Konnect makes anything Programmed. */
  lemma {:induction false} NoRouteIsLost(root: Root, ds: seq<Object>, c: Cluster, es: seq<Event>, k: Key)
    requires (root.Route? ==> ',' !in root.routeRef) && IsRun(ds, es) && k in c
    ensures var d := After(root, ds, c, es);
      && k in d && d[k].deleting == c[k].deleting
      && (forall e :: e in Split(c[k].routes, ',') && e != "" ==> e in Split(d[k].routes, ','))
      && (forall e :: e in Split(d[k].routes, ',') && e != "" ==>
            e in Split(c[k].routes, ',') || (root.Route? && e == root.routeRef))
      && (root.Gateway? ==> d[k].routes == c[k].routes)
      && (d[k].obj != c[k].obj ==> d[k].obj in ds && d[k].obj.key == k && !c[k].deleting)
      && (d[k].programmed <== c[k].programmed) && (d[k].programmed ==> c[k].programmed || k in RunPrograms(es))
  {
    RunTouches(root, ds, c, es);
    hide Split;
  }

  /** Over any run what is new is desired, names the root alone, and waits for Konnect. */
  lemma {:induction false} NewObjectsAreDesired(root: Root, ds: seq<Object>, c: Cluster, es: seq<Event>, k: Key)
    requires (root.Route? ==> ',' !in root.routeRef) && IsRun(ds, es) && k !in c && k in After(root, ds, c, es)
    ensures var now := After(root, ds, c, es)[k];
      && now.obj in ds && now.obj.key == k && !now.deleting && (now.programmed ==> k in RunPrograms(es))
      && (forall e :: e in Split(now.routes, ',') && e != "" ==> root.Route? && e == root.routeRef)
      && (root.Route? && root.routeRef != "" ==> root.routeRef in Split(now.routes, ','))
  {
    RunTouches(root, ds, c, es);
    assert Split("", ',') == [""];
    hide Split;
  }

  // ---------------------------------------------------------------- what a write waits for

  /** What an object depends on, spelled out: everything there and Programmed, a Route's service also not
      being deleted. */
  predicate Servable(ds: seq<Object>, c: Cluster, o: Object) {
    var ns := o.key.namespace;
    && (o.key.kind.KongTarget? && o.upstreamRef != "" ==>
          var k := Key(KongUpstream, ns, o.upstreamRef); k in c && c[k].programmed)
    && (o.key.kind.KongRoute? && o.serviceRef != "" ==>
          var k := Key(KongService, ns, o.serviceRef); k in c && c[k].programmed && !c[k].deleting)
    && (o.key.kind.KongPluginBinding? && o.bindsRoute != "" ==>
          var k := Key(KongRoute, ns, o.bindsRoute); k in c && c[k].programmed)
    && (o.key.kind.KongPluginBinding? && o.bindsKongService && o.bindsService != "" ==>
          var k := Key(KongService, ns, o.bindsService); k in c && c[k].programmed)
    && (o.key.kind.KongService? && o.clientCertificate != "" ==>
          var k := Key(KongCertificate, ns, o.clientCertificate); k in c && c[k].programmed)
    && (o.key.kind.KongService? && o.host != ""
         && (exists u :: u in ds && u.key.kind.KongUpstream? && u.key.name == o.host) ==>
          && (var k := Key(KongUpstream, ns, o.host); k in c && c[k].programmed)
          && forall t :: t in ds && t.key.kind.KongTarget? && t.upstreamRef == o.host ==>
                 t.key in c && c[t.key].programmed)
  }

  lemma {:induction false} GateMeansServable(ds: seq<Object>, c: Cluster, o: Object, unreadable: set<Key>)
    requires GateOf(ds, c, o, unreadable).Pass?
    ensures Servable(ds, c, o)
  {
    if o.key.kind.KongService? && o.host != "" && UpstreamDesired(ds, o.host) {
      TargetsGatePasses(TargetsOf(ds, o.host), c, unreadable);
      forall t | t in ds && t.key.kind.KongTarget? && t.upstreamRef == o.host ensures Programmed(c, t.key) {
        TargetsOfContains(ds, o.host, t);
      }
    }
  }

  predicate StaysProgrammed(c: Cluster, d: Cluster) {
    forall k :: k in c ==> k in d && d[k].deleting == c[k].deleting && (c[k].programmed ==> d[k].programmed)
  }

  lemma {:induction false} ServableStays(ds: seq<Object>, c: Cluster, d: Cluster, o: Object)
    requires Servable(ds, c, o) && StaysProgrammed(c, d)
    ensures Servable(ds, d, o)
  {
  }

  /** Every object is as it was, or is a desired one that can be served. */
  predicate WrittenServable(ds: seq<Object>, c: Cluster, d: Cluster) {
    StaysProgrammed(c, d) && forall k :: k in d ==> (k in c && d[k].obj == c[k].obj) || Servable(ds, d, d[k].obj)
  }

  lemma {:induction false} TouchedStays(root: Root, ds: seq<Object>, p: set<Key>, c: Cluster, d: Cluster)
    requires Touched(root, ds, p, c, d)
    ensures StaysProgrammed(c, d)
  {
    hide Grown;
  }

  lemma {:induction false} IterateStays(root: Root, ds: seq<Object>, l: Loop, o: Object, around: Around)
    requires PlainRoot(root) && o in ds
    ensures var b := Program(l.cluster, around.programs);
      var d := ClusterOf(Iterate(root, ds, l, o, around));
      StaysProgrammed(l.cluster, d) && StaysProgrammed(b, d)
  {
    hide Touched, StaysProgrammed, Program, RecordOnService, Apply, Iterate, PlainRoot;
    var b := Program(l.cluster, around.programs);
    var d := ClusterOf(Iterate(root, ds, l, o, around));
    IterateTouches(root, ds, l, o, around);
    TouchedStays(root, ds, around.programs, l.cluster, d);
    IterateWritesOrNot(root, ds, l, o, around);
    TouchedNothing(root, ds, b);
    WriteTouches(root, ds, l.(cluster := b), o, around);
    TouchedStays(root, ds, {}, b, d);
  }

  /** One write over `b`, which grew from `a`, which grew from `c`. */
  lemma {:induction false} OneWriteServable(ds: seq<Object>, c: Cluster, a: Cluster, d: Cluster, k: Key)
    requires WrittenServable(ds, c, a) && StaysProgrammed(a, d) && k in a && k in d && d[k].obj == a[k].obj
    ensures (k in c && d[k].obj == c[k].obj) || Servable(ds, d, d[k].obj)
  {
    hide Servable;
    if Servable(ds, a, a[k].obj) {
      ServableStays(ds, a, d, d[k].obj);
    }
  }

  lemma {:induction false} StaysTwice(b: Cluster, c: Cluster, d: Cluster)
    requires StaysProgrammed(b, c) && StaysProgrammed(c, d)
    ensures StaysProgrammed(b, d)
  {
  }

  lemma {:induction false} IterateServable(root: Root, ds: seq<Object>, c: Cluster, l: Loop, o: Object, around: Around)
    requires PlainRoot(root) && o in ds && WrittenServable(ds, c, l.cluster)
    ensures WrittenServable(ds, c, ClusterOf(Iterate(root, ds, l, o, around)))
  {
    var b := Program(l.cluster, around.programs);
    var d := ClusterOf(Iterate(root, ds, l, o, around));
    IterateWrites(root, ds, l, o, around);
    IterateStays(root, ds, l, o, around);
    hide Iterate, Servable, GateOf, Program, StaysProgrammed, PlainRoot, Grows;
    StaysTwice(c, l.cluster, d);
    forall k | k in d ensures (k in c && d[k].obj == c[k].obj) || Servable(ds, d, d[k].obj) {
      if k in l.cluster && d[k].obj == l.cluster[k].obj {
        OneWriteServable(ds, c, l.cluster, d, k);
      } else {
        GateMeansServable(ds, b, o, around.unreadable);
        ServableStays(ds, b, d, o);
      }
    }
  }

  lemma {:induction false} LoopServable(root: Root, ds: seq<Object>, c: Cluster, i: nat, l: Loop, arounds: seq<Around>)
    requires PlainRoot(root) && i <= |ds| == |arounds| && WrittenServable(ds, c, l.cluster)
    ensures WrittenServable(ds, c, ClusterOf(EnforceFrom(root, ds, i, l, arounds)))
    decreases |ds| - i
  {
    hide WrittenServable, Iterate, PlainRoot;
    if i < |ds| {
      var out := Iterate(root, ds, l, ds[i], arounds[i]);
      IterateServable(root, ds, c, l, ds[i], arounds[i]);
      if out.Running? {
        LoopServable(root, ds, c, i + 1, out.loop, arounds);
      }
    }
  }

  /** Over any cluster and in any surroundings, what a pass creates or changes has all it depends on. */
  lemma {:induction false} WritesAreServable(root: Root, ds: seq<Object>, c: Cluster, arounds: seq<Around>, k: Key)
    requires (root.Route? ==> ',' !in root.routeRef) && |ds| == |arounds|
    requires var d := ClusterOf(Enforce(root, ds, c, arounds)); k in d && !(k in c && d[k].obj == c[k].obj)
    ensures var d := ClusterOf(Enforce(root, ds, c, arounds)); Servable(ds, d, d[k].obj)
  {
    LoopServable(root, ds, c, 0, Start(c), arounds);
    hide Servable;
  }

  // ---------------------------------------------------------------- recorded on the service first

  /** The service of a KongRoute names the root. */
  predicate Recorded(root: Root, c: Cluster, o: Object) {
    root.Route? && root.routeRef != "" && o.key.kind.KongRoute? && o.serviceRef != "" ==>
      var k := Key(KongService, o.key.namespace, o.serviceRef); k in c && root.routeRef in Split(c[k].routes, ',')
  }

  lemma {:induction false} RecordedStays(root: Root, ds: seq<Object>, p: set<Key>, c: Cluster, d: Cluster, o: Object)
    requires Recorded(root, c, o) && Touched(root, ds, p, c, d)
    ensures Recorded(root, d, o)
  {
    hide Split;
  }

  lemma {:induction false} RecordRecords(root: Root, c: Cluster, o: Object, unreadable: set<Key>)
    requires PlainRoot(root) && (o.key.kind.KongRoute? ==> ServiceGate(c, o, unreadable).Pass?)
    ensures Recorded(root, RecordOnService(root, c, o), o)
  {
    hide Split, Merged;
    var k := Sibling(o, KongService, o.serviceRef);
    if root.Route? && k in c {
      MergeKeepsOtherRoutes(c[k].routes, root.routeRef);
    }
  }

  lemma {:induction false} GateOfRoute(ds: seq<Object>, c: Cluster, o: Object, unreadable: set<Key>)
    requires GateOf(ds, c, o, unreadable).Pass? && o.key.kind.KongRoute?
    ensures ServiceGate(c, o, unreadable).Pass?
  {
  }

  /** An iteration that writes its object has recorded the root on the service. */
  lemma {:induction false} IterateRecords(root: Root, ds: seq<Object>, l: Loop, o: Object, around: Around)
    requires PlainRoot(root) && o in ds && GateOf(ds, Program(l.cluster, around.programs), o, around.unreadable).Pass?
    requires ClusterOf(Iterate(root, ds, l, o, around)) != Program(l.cluster, around.programs)
    ensures Recorded(root, ClusterOf(Iterate(root, ds, l, o, around)), o)
  {
    hide Program, Touched, RecordOnService, Apply, GateOf, ServiceGate, Recorded, Iterate, PlainRoot;
    var b := Program(l.cluster, around.programs);
    var r := l.(cluster := RecordOnService(root, b, o));
    if o.key.kind.KongRoute? {
      GateOfRoute(ds, b, o, around.unreadable);
    }
    RecordRecords(root, b, o, around.unreadable);
    IterateWritesOrNot(root, ds, l, o, around);
    ApplyTouches(root, ds, r, o, around);
    RecordedStays(root, ds, {}, r.cluster, ClusterOf(Apply(root, r, o, around)), o);
  }

  predicate WrittenRecorded(root: Root, c: Cluster, d: Cluster) {
    forall k :: k in d ==> (k in c && d[k].obj == c[k].obj) || Recorded(root, d, d[k].obj)
  }

  lemma {:induction false} IterateRecorded(root: Root, ds: seq<Object>, c: Cluster, l: Loop, o: Object, around: Around)
    requires PlainRoot(root) && o in ds && WrittenRecorded(root, c, l.cluster)
    ensures WrittenRecorded(root, c, ClusterOf(Iterate(root, ds, l, o, around)))
  {
    hide Iterate, GateOf, Program, Recorded, Touched, PlainRoot, Grows;
    var b := Program(l.cluster, around.programs);
    var d := ClusterOf(Iterate(root, ds, l, o, around));
    IterateWrites(root, ds, l, o, around);
    IterateTouches(root, ds, l, o, around);
    ProgramSame(l.cluster, around.programs);
    forall k | k in d ensures (k in c && d[k].obj == c[k].obj) || Recorded(root, d, d[k].obj) {
      if k in l.cluster && d[k].obj == l.cluster[k].obj {
        if !(k in c && d[k].obj == c[k].obj) {
          RecordedStays(root, ds, around.programs, l.cluster, d, d[k].obj);
        }
      } else {
        assert d != b;
        IterateRecords(root, ds, l, o, around);
      }
    }
  }

  lemma {:induction false} ProgramSame(c: Cluster, ks: set<Key>)
    ensures forall k :: (k in Program(c, ks) <==> k in c) && (k in c ==> Program(c, ks)[k].obj == c[k].obj)
  {
  }

  lemma {:induction false} LoopRecorded(root: Root, ds: seq<Object>, c: Cluster, i: nat, l: Loop, arounds: seq<Around>)
    requires PlainRoot(root) && i <= |ds| == |arounds| && WrittenRecorded(root, c, l.cluster)
    ensures WrittenRecorded(root, c, ClusterOf(EnforceFrom(root, ds, i, l, arounds)))
    decreases |ds| - i
  {
    hide WrittenRecorded, Iterate, PlainRoot;
    if i < |ds| {
      var out := Iterate(root, ds, l, ds[i], arounds[i]);
      IterateRecorded(root, ds, c, l, ds[i], arounds[i]);
      if out.Running? {
        LoopRecorded(root, ds, c, i + 1, out.loop, arounds);
      }
    }
  }

  /** What a pass for a Route creates or changes as a KongRoute has a service that names the Route, so that
      another Route that gives the service up does not delete it. */
  lemma {:induction false} RoutesAreRecorded(root: Root, ds: seq<Object>, c: Cluster, arounds: seq<Around>, k: Key)
    requires root.Route? && ',' !in root.routeRef && root.routeRef != "" && |ds| == |arounds|
    requires var d := ClusterOf(Enforce(root, ds, c, arounds)); k in d && !(k in c && d[k].obj == c[k].obj)
    ensures var d := ClusterOf(Enforce(root, ds, c, arounds));
      var o := d[k].obj;
      o.key.kind.KongRoute? && o.serviceRef != "" ==>
        var service := Key(KongService, o.key.namespace, o.serviceRef);
        service in d && root.routeRef in Split(d[service].routes, ',')
  {
    LoopRecorded(root, ds, c, 0, Start(c), arounds);
    hide Split;
  }

  // ---------------------------------------------------------------- the latch

  lemma {:induction false} IterateElsewhere(root: Root, ds: seq<Object>, l: Loop, o: Object, around: Around, k: Key)
    requires k != o.key
    ensures var d := ClusterOf(Iterate(root, ds, l, o, around));
      (k in d <==> k in l.cluster) && (k in d ==> d[k].obj == l.cluster[k].obj)
  {
    IterateWrites(root, ds, l, o, around);
    hide Iterate, GateOf;
  }

  /** What an iteration creates sets the latch to its kind. */
  lemma {:induction false} CreationLatches(root: Root, ds: seq<Object>, l: Loop, o: Object, around: Around)
    requires var out := Iterate(root, ds, l, o, around);
      o.key !in l.cluster && o.key in ClusterOf(out) && out.Running?
    ensures Iterate(root, ds, l, o, around).loop.stopAt == Some(o.key.kind)
  {
    hide GateOf, MergedRoutes, Synced, ServiceToRecordOn;
    RecordWrites(root, Program(l.cluster, around.programs), o);
  }

  /** While the latch is set to a kind, an object of another kind is passed over. */
  lemma {:induction false} LatchedOver(root: Root, ds: seq<Object>, l: Loop, o: Object, around: Around)
    requires l.stopAt.Some? && l.stopAt.value != o.key.kind
    ensures var out := Iterate(root, ds, l, o, around);
      out.Running? && out.loop.stopAt == l.stopAt && out.loop.cluster == Program(l.cluster, around.programs)
  {
  }

  /** The loop from position `i` on leaves alone what stands before `i`. */
  lemma {:induction false} LoopElsewhere(root: Root, ds: seq<Object>, i: nat, l: Loop, arounds: seq<Around>, k: Key)
    requires i <= |ds| == |arounds| && forall m :: i <= m < |ds| ==> ds[m].key != k
    ensures var d := ClusterOf(EnforceFrom(root, ds, i, l, arounds));
      (k in d <==> k in l.cluster) && (k in d ==> d[k].obj == l.cluster[k].obj)
    decreases |ds| - i
  {
    hide Iterate;
    if i < |ds| {
      var out := Iterate(root, ds, l, ds[i], arounds[i]);
      IterateElsewhere(root, ds, l, ds[i], arounds[i], k);
      if out.Running? {
        LoopElsewhere(root, ds, i + 1, out.loop, arounds, k);
      }
    }
  }

  /** With the latch set at position `i` to `kind` and only other kinds up to `q`, the object at `q` stays. */
  lemma {:induction false} LatchedThrough(root: Root, ds: seq<Object>, i: nat, l: Loop, arounds: seq<Around>, q: nat,
                                          kind: Kind)
    requires i <= q < |ds| == |arounds| && DistinctKeys(ds) && l.stopAt == Some(kind)
    requires forall m :: i <= m <= q ==> ds[m].key.kind != kind
    ensures var d := ClusterOf(EnforceFrom(root, ds, i, l, arounds));
      var k := ds[q].key;
      (k in d <==> k in l.cluster) && (k in d ==> d[k].obj == l.cluster[k].obj)
    decreases |ds| - i
  {
    var k := ds[q].key;
    LatchedOver(root, ds, l, ds[i], arounds[i]);
    hide Iterate;
    var out := Iterate(root, ds, l, ds[i], arounds[i]);
    if i < q {
      LatchedThrough(root, ds, i + 1, out.loop, arounds, q, kind);
    } else {
      LoopElsewhere(root, ds, i + 1, out.loop, arounds, k);
    }
  }

  lemma {:induction false} HeldBackFrom(root: Root, ds: seq<Object>, i: nat, l: Loop, arounds: seq<Around>, p: nat,
                                        q: nat)
    requires i <= p < q < |ds| == |arounds| && DistinctKeys(ds)
    requires ds[p].key !in l.cluster && ds[p].key in ClusterOf(EnforceFrom(root, ds, i, l, arounds))
    requires forall m :: p < m <= q ==> ds[m].key.kind != ds[p].key.kind
    ensures var d := ClusterOf(EnforceFrom(root, ds, i, l, arounds));
      var k := ds[q].key;
      (k in d <==> k in l.cluster) && (k in d ==> d[k].obj == l.cluster[k].obj)
    decreases |ds| - i
  {
    var out := Iterate(root, ds, l, ds[i], arounds[i]);
    IterateElsewhere(root, ds, l, ds[i], arounds[i], ds[q].key);
    if i < p {
      IterateElsewhere(root, ds, l, ds[i], arounds[i], ds[p].key);
      hide Iterate;
      if out.Running? {
        HeldBackFrom(root, ds, i + 1, out.loop, arounds, p, q);
      }
    } else if out.Running? {
      hide Iterate;
      if ds[p].key !in out.loop.cluster {
        LoopElsewhere(root, ds, p + 1, out.loop, arounds, ds[p].key);
      } else {
        CreationLatches(root, ds, l, ds[p], arounds[p]);
        LatchedThrough(root, ds, p + 1, out.loop, arounds, q, ds[p].key.kind);
      }
    }
  }

  /** What a pass creates holds back everything of other kinds that follows, up to the next object of its
      own kind: it is neither created nor changed in the same pass. */
  lemma {:induction false} CreationHoldsBack(root: Root, ds: seq<Object>, c: Cluster, arounds: seq<Around>, p: nat,
                                             q: nat)
    requires p < q < |ds| == |arounds| && DistinctKeys(ds)
    requires ds[p].key !in c && ds[p].key in ClusterOf(Enforce(root, ds, c, arounds))
    requires forall m :: p < m <= q ==> ds[m].key.kind != ds[p].key.kind
    ensures var d := ClusterOf(Enforce(root, ds, c, arounds));
      var k := ds[q].key;
      (k in d <==> k in c) && (k in d ==> d[k].obj == c[k].obj)
  {
    HeldBackFrom(root, ds, 0, Start(c), arounds, p, q);
  }

  /** The pass created the object, or gave it another spec. */
  predicate Written(c: Cluster, d: Cluster, k: Key) {
    k in d && !(k in c && d[k].obj == c[k].obj)
  }

  lemma {:induction false} LatchStays(root: Root, ds: seq<Object>, l: Loop, o: Object, around: Around)
    requires l.stopAt.Some?
    ensures var out := Iterate(root, ds, l, o, around); out.Running? ==> out.loop.stopAt.Some?
  {
    hide GateOf, MergedRoutes, Synced, ServiceToRecordOn, RecordOnService, Program;
  }

  lemma {:induction false} DeletingLatches(root: Root, ds: seq<Object>, l: Loop, o: Object, around: Around)
    requires o.key in l.cluster && l.cluster[o.key].deleting
    ensures var out := Iterate(root, ds, l, o, around); out.Running? ==> out.loop.stopAt.Some?
  {
    hide GateOf, MergedRoutes, Synced, ServiceToRecordOn;
    RecordWrites(root, Program(l.cluster, around.programs), o);
  }

  lemma {:induction false} WriterIsLatched(root: Root, ds: seq<Object>, l: Loop, o: Object, around: Around)
    requires l.stopAt.Some? && Written(l.cluster, ClusterOf(Iterate(root, ds, l, o, around)), o.key)
    ensures var out := Iterate(root, ds, l, o, around); out.Running? && out.loop.stopAt == Some(o.key.kind)
  {
    hide GateOf, MergedRoutes, Synced, ServiceToRecordOn;
    RecordWrites(root, Program(l.cluster, around.programs), o);
  }

  lemma {:induction false} DeletingStays(root: Root, ds: seq<Object>, l: Loop, o: Object, around: Around, k: Key)
    requires PlainRoot(root) && o in ds && k in l.cluster && l.cluster[k].deleting
    ensures var d := ClusterOf(Iterate(root, ds, l, o, around)); k in d && d[k].deleting
  {
    IterateTouches(root, ds, l, o, around);
    hide Iterate, Grown;
  }

  /** With the latch set, of two objects with other kinds between them at most one is written. */
  lemma {:induction false} OneKindFrom(root: Root, ds: seq<Object>, i: nat, l: Loop, arounds: seq<Around>, p: nat,
                                       q: nat)
    requires i <= p < q < |ds| == |arounds| && DistinctKeys(ds) && l.stopAt.Some?
    requires forall m :: p < m <= q ==> ds[m].key.kind != ds[p].key.kind
    ensures var d := ClusterOf(EnforceFrom(root, ds, i, l, arounds));
      !(Written(l.cluster, d, ds[p].key) && Written(l.cluster, d, ds[q].key))
    decreases |ds| - i
  {
    hide Iterate;
    var out := Iterate(root, ds, l, ds[i], arounds[i]);
    IterateElsewhere(root, ds, l, ds[i], arounds[i], ds[q].key);
    if i < p {
      LatchStays(root, ds, l, ds[i], arounds[i]);
      IterateElsewhere(root, ds, l, ds[i], arounds[i], ds[p].key);
      if out.Running? {
        OneKindFrom(root, ds, i + 1, out.loop, arounds, p, q);
      }
    } else if Written(l.cluster, ClusterOf(out), ds[p].key) {
      WriterIsLatched(root, ds, l, ds[p], arounds[p]);
      LatchedThrough(root, ds, p + 1, out.loop, arounds, q, ds[p].key.kind);
    } else if out.Running? {
      LoopElsewhere(root, ds, p + 1, out.loop, arounds, ds[p].key);
    }
  }

  lemma {:induction false} WaitingLatches(root: Root, ds: seq<Object>, l: Loop, o: Object, around: Around)
    requires !GateOf(ds, Program(l.cluster, around.programs), o, around.unreadable).Pass?
    ensures var out := Iterate(root, ds, l, o, around); out.Running? ==> out.loop.stopAt.Some?
  {
    hide GateOf, Apply, ServiceToRecordOn, RecordOnService, Program;
  }

  /** What can be served when its gate is passed still can when the pass is over. */
  lemma {:induction false} PassedIsServable(root: Root, ds: seq<Object>, i: nat, l: Loop, arounds: seq<Around>)
    requires PlainRoot(root) && i < |ds| == |arounds|
    requires GateOf(ds, Program(l.cluster, arounds[i].programs), ds[i], arounds[i].unreadable).Pass?
    ensures Servable(ds, ClusterOf(EnforceFrom(root, ds, i, l, arounds)), ds[i])
  {
    hide GateOf, Iterate, Program, Servable, StaysProgrammed, Touched, PlainRoot;
    var b := Program(l.cluster, arounds[i].programs);
    var out := Iterate(root, ds, l, ds[i], arounds[i]);
    var f := ClusterOf(EnforceFrom(root, ds, i, l, arounds));
    IterateStays(root, ds, l, ds[i], arounds[i]);
    if out.Running? {
      LoopTouches(root, ds, i + 1, out.loop, arounds);
      TouchedStays(root, ds, ProgramsOf(arounds[i + 1..]), out.loop.cluster, f);
      StaysTwice(b, out.loop.cluster, f);
    }
    GateMeansServable(ds, b, ds[i], arounds[i].unreadable);
    ServableStays(ds, b, f, ds[i]);
  }

  lemma {:induction false} OneKindAfter(root: Root, ds: seq<Object>, i: nat, l: Loop, arounds: seq<Around>, n: nat,
                                        p: nat, q: nat)
    requires PlainRoot(root) && i <= n < p < q < |ds| == |arounds| && DistinctKeys(ds)
    requires (ds[n].key in l.cluster && l.cluster[ds[n].key].deleting)
             || !Servable(ds, ClusterOf(EnforceFrom(root, ds, i, l, arounds)), ds[n])
    requires forall m :: p < m <= q ==> ds[m].key.kind != ds[p].key.kind
    ensures var d := ClusterOf(EnforceFrom(root, ds, i, l, arounds));
      !(Written(l.cluster, d, ds[p].key) && Written(l.cluster, d, ds[q].key))
    decreases |ds| - i
  {
    hide Iterate, PlainRoot, Servable, GateOf, Program;
    var out := Iterate(root, ds, l, ds[i], arounds[i]);
    IterateElsewhere(root, ds, l, ds[i], arounds[i], ds[p].key);
    IterateElsewhere(root, ds, l, ds[i], arounds[i], ds[q].key);
    if out.Running? {
      if i < n {
        if ds[n].key in l.cluster && l.cluster[ds[n].key].deleting {
          DeletingStays(root, ds, l, ds[i], arounds[i], ds[n].key);
        }
        OneKindAfter(root, ds, i + 1, out.loop, arounds, n, p, q);
      } else {
        if ds[n].key in l.cluster && l.cluster[ds[n].key].deleting {
          DeletingLatches(root, ds, l, ds[n], arounds[n]);
        } else if GateOf(ds, Program(l.cluster, arounds[n].programs), ds[n], arounds[n].unreadable).Pass? {
          PassedIsServable(root, ds, n, l, arounds);
        } else {
          WaitingLatches(root, ds, l, ds[n], arounds[n]);
        }
        if out.loop.stopAt.Some? {
          OneKindFrom(root, ds, n + 1, out.loop, arounds, p, q);
        }
      }
    }
  }

  /** What has to wait holds back, too: after a desired object that is being deleted, or still lacks something
      it depends on when the pass is over, the pass goes on with one kind at a time.  Of two objects behind it
      the second is left alone when the first is written, unless it is of the first one's kind or another of
      that kind stands between them. */
  lemma {:induction false} WaitingHoldsBack(root: Root, ds: seq<Object>, c: Cluster, arounds: seq<Around>, n: nat,
                                            p: nat, q: nat)
    requires (root.Route? ==> ',' !in root.routeRef) && n < p < q < |ds| == |arounds| && DistinctKeys(ds)
    requires (ds[n].key in c && c[ds[n].key].deleting)
             || !Servable(ds, ClusterOf(Enforce(root, ds, c, arounds)), ds[n])
    requires forall m :: p < m <= q ==> ds[m].key.kind != ds[p].key.kind
    ensures var d := ClusterOf(Enforce(root, ds, c, arounds));
      var (first, second) := (ds[p].key, ds[q].key);
      first in d && !(first in c && d[first].obj == c[first].obj) ==>
        (second in d <==> second in c) && (second in d ==> d[second].obj == c[second].obj)
  {
    hide EnforceFrom, Grown, Servable;
    OneKindAfter(root, ds, 0, Start(c), arounds, n, p, q);
    PassTouches(root, ds, c, arounds);
  }
}
