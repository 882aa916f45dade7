/**
 The namespace left out of a name, over many passes: an upstream with the name of an earlier one in
 another namespace is never created, however often enforcement runs and whatever else is missing.
 */
module HybridStarvation {
  import opened Wrappers
  import opened HybridState
  import opened HybridSafety
  import opened HybridProgress
  import opened HybridBlocks
  import opened HybridOrder

  /** The service at `i` waits for the target at `t`, which waits for the upstream at `j`, which comes
      after the service; neither of the two exists. */
  predicate Starved(ds: seq<Object>, c: Cluster, i: nat, j: nat, t: nat) {
    && i < j < t < |ds|
    && IsTargetOf(ds[t], ds[i]) && ds[j].key.kind.KongUpstream?
    && ds[t].upstreamRef != "" && ds[j].key == Sibling(ds[t], KongUpstream, ds[t].upstreamRef)
    && ds[j].key !in c && ds[t].key !in c
  }

  /** The upstreams before position `j` are there and Programmed. */
  predicate UpstreamsReady(ds: seq<Object>, c: Cluster, j: nat)
    requires j <= |ds|
  {
    forall q :: 0 <= q < j && ds[q].key.kind.KongUpstream? ==>
      ds[q].key in c && c[ds[q].key].programmed && !c[ds[q].key].deleting
  }

  /** At position `p` the loop is not about to create the upstream at `j`. */
  predicate Starving(ds: seq<Object>, l: Loop, p: nat, i: nat, j: nat, t: nat) {
    && Starved(ds, l.cluster, i, j, t) && UpstreamsReady(ds, l.cluster, j)
    && (p <= j ==> l.stopAt != Some(KongUpstream))
    && (i < p <= j ==> l.stopAt.Some?)
  }

  /** A write of another object changes nothing about that. */
  lemma {:induction false} WriteKeeps(ds: seq<Object>, c: Cluster, d: Cluster, o: Object, i: nat, j: nat, t: nat)
    requires Starved(ds, c, i, j, t) && UpstreamsReady(ds, c, j) && o.key != ds[j].key && o.key != ds[t].key
    requires forall k :: k in d ==> k in c || k == o.key
    requires forall k :: k in c ==> k in d && d[k].deleting == c[k].deleting && (c[k].programmed ==> d[k].programmed)
    ensures Starved(ds, d, i, j, t) && UpstreamsReady(ds, d, j)
  {
  }

  /** What one iteration may do to the cluster: add its object, and nothing to the status of others. */
  lemma {:induction false} IterateKeeps(root: Root, ds: seq<Object>, l: Loop, o: Object, around: Around)
    ensures var c, d := l.cluster, ClusterOf(Iterate(root, ds, l, o, around));
      && (forall k :: k in d ==> k in c || k == o.key)
      && forall k :: k in c ==> k in d && d[k].deleting == c[k].deleting && (c[k].programmed ==> d[k].programmed)
  {
    var c := Program(l.cluster, around.programs);
    var r := RecordOnService(root, c, o);
    RecordWrites(root, c, o);
    ApplyKeeps(root, l.(cluster := r), o, around);
    var out := Iterate(root, ds, l, o, around);
    hide RecordOnService, Apply, GateOf, ServiceToRecordOn;
    assert ClusterOf(out) == c || out == Apply(root, l.(cluster := r), o, around);
  }

  lemma {:induction false} ApplyKeeps(root: Root, l: Loop, o: Object, around: Around)
    ensures var c, d := l.cluster, ClusterOf(Apply(root, l, o, around));
      && (forall k :: k in d ==> k in c || k == o.key)
      && forall k :: k in c ==> k in d && d[k].deleting == c[k].deleting && d[k].programmed == c[k].programmed
  {
    hide MergedRoutes;
  }

  /** Before position `j` nothing waits for an upstream. */
  lemma {:induction false} NoUpstreamWait(ds: seq<Object>, c: Cluster, j: nat, p: nat)
    requires NeedsPrecede(ds) && p < j <= |ds| && UpstreamsReady(ds, c, j)
    ensures GateOf(ds, c, ds[p], {}) != WaitFor(KongUpstream)
  {
    var o := ds[p];
    hide NeedsPrecede, UpstreamsReady;
    if o.key.kind.KongTarget? && o.upstreamRef != "" {
      NeededUpstreamReady(ds, c, j, p, o.upstreamRef);
    } else if o.key.kind.KongService? && o.host != "" && UpstreamDesired(ds, o.host) {
      NeededUpstreamReady(ds, c, j, p, o.host);
      TargetsWait(TargetsOf(ds, o.host), c);
    }
  }

  lemma {:induction false} NeededUpstreamReady(ds: seq<Object>, c: Cluster, j: nat, p: nat, name: string)
    requires NeedsPrecede(ds) && p < j <= |ds| && UpstreamsReady(ds, c, j)
    requires Sibling(ds[p], KongUpstream, name) in Needs(ds, ds[p])
    ensures Ready(c, Sibling(ds[p], KongUpstream, name), {})
  {
    var q :| 0 <= q < p && ds[q].key == Sibling(ds[p], KongUpstream, name);
  }

  lemma {:induction false} TargetsWait(targets: seq<Object>, c: Cluster)
    ensures TargetsGate(targets, c, {}) in {Gate.Pass, WaitFor(KongTarget)}
  {
    if targets != [] {
      TargetsWait(targets[1..], c);
    }
  }

  /** The service waits for the missing target, whatever else there is. */
  lemma {:induction false} ServiceStarves(ds: seq<Object>, c: Cluster, i: nat, j: nat, t: nat)
    requires NeedsPrecede(ds) && Starved(ds, c, i, j, t) && UpstreamsReady(ds, c, j)
    ensures GateOf(ds, c, ds[i], {}) == WaitFor(KongTarget)
  {
    var s := ds[i];
    assert ds[j] in ds && UpstreamDesired(ds, s.host);
    NeededUpstreamReady(ds, c, j, i, s.host);
    TargetsOfContains(ds, s.host, ds[t]);
    MissingHoldsBack(TargetsOf(ds, s.host), c, ds[t]);
  }

  /** So the latch, once past the service, stays set to something else than an upstream. */
  lemma {:induction false} LatchStep(root: Root, ds: seq<Object>, l: Loop, p: nat, i: nat, j: nat, t: nat,
                                     around: Around)
    requires NeedsPrecede(ds) && p < j && Starving(ds, l, p, i, j, t) && Quiet([around])
    ensures var out := Iterate(root, ds, l, ds[p], around);
      out.Running? && out.loop.stopAt != Some(KongUpstream) && (i <= p ==> out.loop.stopAt.Some?)
  {
    assert around in [around];
    var c := Program(l.cluster, around.programs);
    var o := ds[p];
    NoUpstreamWait(ds, c, j, p);
    if p == i {
      ServiceStarves(ds, c, i, j, t);
    }
    NoAbort(TargetsOf(ds, o.host), c);
    NeverAborts(ds, c, o);
    assert o.key.kind.KongUpstream? ==> o.key in c && !c[o.key].deleting;
    hide GateOf, MergedRoutes, NeedsPrecede, Synced, ServiceToRecordOn;
    var r := l.(cluster := RecordOnService(root, c, o));
    RecordWrites(root, c, o);
    hide RecordOnService;
    assert !around.applyFails && !around.recordFails;
  }

  lemma {:induction false} NeverAborts(ds: seq<Object>, c: Cluster, o: Object)
    ensures !GateOf(ds, c, o, {}).Abort?
  {
    NoAbort(TargetsOf(ds, o.host), c);
  }

  /** At the missing upstream the loop passes over it, and at the missing target that one waits. */
  lemma {:induction false} NothingCreated(root: Root, ds: seq<Object>, l: Loop, p: nat, i: nat, j: nat, t: nat,
                                          around: Around)
    requires p == j || p == t
    requires Starving(ds, l, p, i, j, t) && Quiet([around])
    ensures var out := Iterate(root, ds, l, ds[p], around);
      out.Running? && out.loop.cluster == Program(l.cluster, around.programs)
  {
    assert around in [around];
  }

  lemma {:induction false} StarvingStep(root: Root, ds: seq<Object>, l: Loop, p: nat, i: nat, j: nat, t: nat,
                                        around: Around)
    requires DistinctKeys(ds) && NeedsPrecede(ds) && p < |ds| && Starving(ds, l, p, i, j, t) && Quiet([around])
    ensures var out := Iterate(root, ds, l, ds[p], around); out.Running? && Starving(ds, out.loop, p + 1, i, j, t)
  {
    var out := Iterate(root, ds, l, ds[p], around);
    RunsOn(root, ds, l, ds[p], around);
    if p < j {
      LatchStep(root, ds, l, p, i, j, t, around);
    }
    IterateKeeps(root, ds, l, ds[p], around);
    if p == j || p == t {
      NothingCreated(root, ds, l, p, i, j, t, around);
      hide Iterate, NeedsPrecede, DistinctKeys, Quiet;
    } else {
      assert ds[p].key != ds[j].key && ds[p].key != ds[t].key;
      hide Iterate, NeedsPrecede, DistinctKeys, Quiet;
      WriteKeeps(ds, l.cluster, out.loop.cluster, ds[p], i, j, t);
    }
  }

  lemma {:induction false} RunsOn(root: Root, ds: seq<Object>, l: Loop, o: Object, around: Around)
    requires Quiet([around])
    ensures Iterate(root, ds, l, o, around).Running?
  {
    assert around in [around];
    NeverAborts(ds, Program(l.cluster, around.programs), o);
    hide GateOf, MergedRoutes, Synced, RecordOnService, ServiceToRecordOn;
  }

  lemma {:induction false} StarvingPass(root: Root, ds: seq<Object>, l: Loop, p: nat, i: nat, j: nat, t: nat,
                                        arounds: seq<Around>)
    requires DistinctKeys(ds) && NeedsPrecede(ds) && p <= |ds| == |arounds| && Starving(ds, l, p, i, j, t)
        && Quiet(arounds)
    ensures var out := EnforceFrom(root, ds, p, l, arounds);
      out.Running? && Starved(ds, out.loop.cluster, i, j, t) && UpstreamsReady(ds, out.loop.cluster, j)
    decreases |ds| - p
  {
    assert Starving(ds, l, p, i, j, t) ==> j < |ds|;
    hide DistinctKeys, NeedsPrecede, Iterate;
    if p < |ds| {
      assert Quiet([arounds[p]]) by {
        assert arounds[p] in arounds;
      }
      StarvingStep(root, ds, l, p, i, j, t, arounds[p]);
      hide Quiet, Starving;
      StarvingPass(root, ds, Iterate(root, ds, l, ds[p], arounds[p]).loop, p + 1, i, j, t, arounds);
    }
  }

  lemma {:induction false} StarvingRounds(root: Root, ds: seq<Object>, c: Cluster, rounds: seq<seq<Around>>, i: nat,
                                          j: nat, t: nat)
    requires DistinctKeys(ds) && NeedsPrecede(ds) && Starved(ds, c, i, j, t) && UpstreamsReady(ds, c, j)
        && Quieted(ds, rounds)
    ensures var d := Rounds(root, ds, c, rounds); ds[j].key !in d && ds[t].key !in d
    decreases |rounds|
  {
    if rounds != [] {
      assert rounds[0] in rounds && forall r :: r in rounds[1..] ==> r in rounds;
      StarvingPass(root, ds, Start(c), 0, i, j, t, rounds[0]);
      var d := ClusterOf(Enforce(root, ds, c, rounds[0]));
      assert Starved(ds, Program(d, d.Keys), i, j, t) && UpstreamsReady(ds, Program(d, d.Keys), j);
      hide DistinctKeys, NeedsPrecede, Starved, UpstreamsReady, Enforce, Quiet;
      StarvingRounds(root, ds, Round(root, ds, c, rounds[0]), rounds[1..], i, j, t);
    }
  }

  // ---------------------------------------------------------------- translated Routes

  lemma {:induction false} DedupPrefix(a: seq<Object>, b: seq<Object>)
    ensures Dedup(a) <= Dedup(a + b)
    decreases |b|
  {
    if b == [] {
      assert a + b == a;
    } else {
      DedupPrefix(a, b[..|b| - 1]);
      assert (a + b)[..|a + b| - 1] == a + b[..|b| - 1];
    }
  }

  lemma {:induction false} DedupSubset(os: seq<Object>, i: nat)
    requires i < |Dedup(os)|
    ensures Dedup(os)[i] in os
  {
    assert os[Kept(os)[i]] == Dedup(os)[i];
  }

  /** A new object stands right after what was kept before it. */
  lemma {:induction false} NewObjectAt(a: seq<Object>, o: Object, rest: seq<Object>)
    requires !KeyIn(a, o.key)
    ensures var ds := Dedup(a + [o] + rest);
      Dedup(a) <= ds && |Dedup(a)| < |ds| && ds[|Dedup(a)|] == o
  {
    assert (a + [o])[..|a|] == a;
    assert Dedup(a + [o]) == Dedup(a) + [o];
    DedupPrefix(a + [o], rest);
    hide Dedup;
    assert Dedup(a) + [o] <= Dedup(a + [o] + rest);
  }

  /** What is first at a position after `a` is kept after everything kept of `a`. */
  lemma {:induction false} KeptAfter(a: seq<Object>, y: seq<Object>, p: nat) returns (t: nat)
    requires |a| <= p && First(a + y, p)
    ensures |Dedup(a)| <= t < |Dedup(a + y)| && Dedup(a + y)[t] == (a + y)[p]
    decreases |y|
  {
    var n := |y| - 1;
    var os, init := a + y, a + y[..n];
    assert os[..|os| - 1] == init;
    assert forall q :: 0 <= q < |init| ==> os[q] == init[q];
    if p == |os| - 1 {
      assert !KeyIn(init, os[p].key);
      t := |Dedup(init)|;
      DedupPrefix(a, y[..n]);
    } else {
      assert First(init, p);
      t := KeptAfter(a, y[..n], p);
    }
  }

  /** Where a new target of a block first stands. */
  lemma {:induction false} NewTargetFirst(a: seq<Object>, b: Block, rest: seq<Object>, o: Object) returns (p: nat)
    requires BlockShape(b) && o in b.targets && !KeyIn(a, o.key)
    ensures var os := a + (Flat(b) + rest);
      |a| <= p < |os| && First(os, p) && os[p].key == o.key && os[p].upstreamRef == b.upstream.key.name
  {
    var f := Flat(b);
    var os := a + (f + rest);
    TargetsInBlock(b, o);
    var n :| 0 <= n < |f| && f[n].key == o.key;
    assert os[|a| + n] == f[n];
    p := FirstOf(os, o.key, |a| + n + 1);
    assert forall q :: 0 <= q < |a| ==> os[q] == a[q];
    assert forall q :: 0 <= q < |f| ==> os[|a| + q] == f[q];
    assert |a| <= p;
    TargetsComeLast(b, p - |a|);
  }

  /** Where a new target of a block ends up. */
  lemma {:induction false} NewTargetAt(a: seq<Object>, b: Block, rest: seq<Object>, o: Object) returns (t: nat)
    requires BlockShape(b) && o in b.targets && !KeyIn(a, o.key) && !KeyIn(a, b.upstream.key)
    ensures var ds := Dedup(a + (Flat(b) + rest));
      && Dedup(a) <= ds && |Dedup(a)| < t < |ds|
      && ds[|Dedup(a)|] == b.upstream && ds[t].key == o.key && ds[t].upstreamRef == b.upstream.key.name
  {
    var f := Flat(b);
    var os := a + (f + rest);
    var p := NewTargetFirst(a, b, rest, o);
    t := KeptAfter(a, f + rest, p);
    assert os == a + [b.upstream] + (f[1..] + rest);
    NewObjectAt(a, b.upstream, f[1..] + rest);
    assert b.upstream.key.kind.KongUpstream? && o.key.kind.KongTarget?;
    hide Dedup, BlockShape, Flat, First;
  }

  /** All objects of a block but the grants are in the namespace of its upstream. */
  lemma {:induction false} TargetInNamespace(b: Block, o: Object)
    requires BlockShape(b) && o in b.targets
    ensures b.upstream.key.kind.KongUpstream? && o.key.kind.KongTarget?
    ensures o.key.namespace == b.upstream.key.namespace
  {
    var n :| 0 <= n < |b.targets| && b.targets[n] == o;
    assert Flat(b)[2 + |b.prelude| + |b.middle| + n] == o;
    assert o in Flat(b);
  }

  /** What was translated before block `n` has its upstreams, whatever else is in place or missing, and
      block `n` is new: its upstream has the name of an earlier one in another namespace.  However many
      undisturbed rounds follow, and whatever comes after that block, neither its upstream nor a new target
      of it is ever created. */
  lemma {:induction false} SecondNamespaceIsNeverServed(root: Root, bs: seq<Block>, n: nat, o: Object, i: nat,
                                                        c: Cluster, rounds: seq<seq<Around>>)
    requires n < |bs| && forall b :: b in bs ==> BlockShape(b)
    requires !KeyIn(Flatten(bs[..n]), bs[n].upstream.key) && o in bs[n].targets && !KeyIn(Flatten(bs[..n]), o.key)
    requires var first := Dedup(Flatten(bs[..n]));
      i < |first| && first[i].key.kind.KongService? && first[i].host == bs[n].upstream.key.name != ""
    requires Settled(c) && bs[n].upstream.key !in c && o.key !in c
    requires forall u :: u in Flatten(bs[..n]) && u.key.kind.KongUpstream? ==> u.key in c
    requires Quieted(Dedup(Flatten(bs)), rounds)
    ensures var d := Rounds(root, Dedup(Flatten(bs)), c, rounds);
      bs[n].upstream.key !in d && o.key !in d
  {
    hide Flatten, Flat, BlockShape, Settled, Quieted, NeedsPrecede, DistinctKeys, KeyIn, Dedup, Rounds;
    hide Starved, UpstreamsReady;
    assert BlockShape(bs[n]);
    var rest := FlattenAt(bs, n);
    TranslationIsOrdered(bs);
    var j, t := AddedIsStarved(Flatten(bs[..n]), bs[n], rest, o, i, c);
    StarvingRounds(root, Dedup(Flatten(bs)), c, rounds, i, j, t);
  }

  lemma {:induction false} TranslationIsOrdered(bs: seq<Block>)
    requires forall b :: b in bs ==> BlockShape(b)
    ensures NeedsPrecede(Dedup(Flatten(bs))) && DistinctKeys(Dedup(Flatten(bs)))
  {
    hide Flatten, BlockShape, Ordered, NeedsPrecede, DistinctKeys, Dedup;
    BlocksAreOrdered(Flatten(bs), bs);
    OrderedNeeds(Flatten(bs));
    DedupKeepsPrecedence(Flatten(bs));
    DistinctAfterDedup(Flatten(bs));
  }

  lemma {:induction false} FlattenAt(bs: seq<Block>, n: nat) returns (rest: seq<Object>)
    requires n < |bs|
    ensures Flatten(bs) == Flatten(bs[..n]) + (Flat(bs[n]) + rest)
  {
    hide Flatten, Flat;
    rest := FlattenAround(bs[..n], bs[n], bs[n + 1..]);
    assert bs == bs[..n] + [bs[n]] + bs[n + 1..];
  }

  lemma {:induction false} FlattenAround(bs: seq<Block>, b: Block, more: seq<Block>) returns (rest: seq<Object>)
    ensures Flatten(bs + [b] + more) == Flatten(bs) + (Flat(b) + rest)
  {
    rest := FlattenConcat(bs + [b], more);
    assert (bs + [b])[..|bs|] == bs;
    hide Flat;
    assert Flatten(bs + [b]) == Flatten(bs) + Flat(b);
  }

  lemma {:induction false} AddedIsStarved(a: seq<Object>, b: Block, rest: seq<Object>, o: Object, i: nat, c: Cluster)
    returns (j: nat, t: nat)
    requires BlockShape(b) && o in b.targets && !KeyIn(a, b.upstream.key) && !KeyIn(a, o.key)
    requires i < |Dedup(a)| && Dedup(a)[i].key.kind.KongService? && Dedup(a)[i].host == b.upstream.key.name != ""
    requires Settled(c) && b.upstream.key !in c && o.key !in c
    requires forall u :: u in a && u.key.kind.KongUpstream? ==> u.key in c
    ensures var ds := Dedup(a + (Flat(b) + rest));
      Starved(ds, c, i, j, t) && UpstreamsReady(ds, c, j) && ds[j].key == b.upstream.key && ds[t].key == o.key
  {
    t := NewTargetAt(a, b, rest, o);
    TargetInNamespace(b, o);
    j := |Dedup(a)|;
    var ds := Dedup(a + (Flat(b) + rest));
    EarlierUpstreamsReady(a, ds, c);
    hide UpstreamsReady, Dedup, Flat, BlockShape, KeyIn, Settled;
    assert ds[i] == Dedup(a)[i];
  }

  lemma {:induction false} OrderedNeeds(os: seq<Object>)
    requires Ordered(os, os)
    ensures NeedsPrecede(os)
  {
  }

  lemma {:induction false} FlattenConcat(bs: seq<Block>, more: seq<Block>) returns (rest: seq<Object>)
    ensures Flatten(bs + more) == Flatten(bs) + rest
    decreases |more|
  {
    if more == [] {
      assert bs + more == bs;
      rest := [];
    } else {
      var n := |more| - 1;
      var r := FlattenConcat(bs, more[..n]);
      assert (bs + more)[..|bs + more| - 1] == bs + more[..n];
      rest := r + Flat(more[n]);
    }
  }

  lemma {:induction false} EarlierUpstreamsReady(a: seq<Object>, ds: seq<Object>, c: Cluster)
    requires Settled(c) && Dedup(a) <= ds && forall u :: u in a && u.key.kind.KongUpstream? ==> u.key in c
    ensures UpstreamsReady(ds, c, |Dedup(a)|)
  {
    forall q | 0 <= q < |Dedup(a)| && ds[q].key.kind.KongUpstream? ensures ds[q].key in c {
      DedupSubset(a, q);
    }
  }
}
