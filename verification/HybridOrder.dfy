/**
 The order is necessary: when it is violated there is a settled cluster that no undisturbed pass ever
 changes although something is missing.
 */
module HybridOrder {
  import opened Annotations
  import opened HybridState
  import opened HybridSafety
  import opened HybridProgress
  import opened HybridBlocks

  /** The service at `i` waits for the missing target at `t`; before that one the loop comes to the
      target at `m`, whose upstream, at `j`, is missing too and comes after the service. */
  predicate Blocked(root: Root, ds: seq<Object>, c: Cluster, i: nat, j: nat, m: nat, t: nat) {
    && i < j < m <= t < |ds|
    && SyncedUpTo(root, ds, c, i)
    && IsTargetOf(ds[t], ds[i]) && ds[t].key !in c
    && ds[j].key.kind.KongUpstream? && ds[j].key !in c
    && ds[m].key.kind.KongTarget? && ds[j].key in Needs(ds, ds[m])
    && (forall p :: i < p < m && ds[p].key.kind.KongTarget? ==>
          Synced(root, c, ds[p]) && forall k :: k in Needs(ds, ds[p]) ==> k in c || k == ds[j].key)
    && (forall p :: j < p < |ds| && ds[p].key.kind.KongUpstream? ==> Synced(root, c, ds[p]))
  }

  /** The loop has written nothing, and is set to write nothing. */
  predicate Waiting(ds: seq<Object>, c: Cluster, l: Loop, p: nat, i: nat, j: nat, m: nat) {
    && l.cluster == c && l.created == l.updated == 0
    && match l.stopAt
       case None => p <= i
       case Some(KongTarget) => p <= m && l.skipped > 0
       case Some(KongUpstream) => p > j && l.skipped > 0
       case _ => false
  }

  lemma {:induction false} WaitsBeforeService(root: Root, ds: seq<Object>, c: Cluster, l: Loop, p: nat, i: nat, j: nat,
                                              m: nat, t: nat, around: Around)
    requires Settled(c) && NeedsPrecede(ds) && Blocked(root, ds, c, i, j, m, t) && Quiet([around])
    requires p < i && Waiting(ds, c, l, p, i, j, m)
    ensures var out := Iterate(root, ds, l, ds[p], around); out.Running? && Waiting(ds, c, out.loop, p + 1, i, j, m)
  {
    assert around in [around];
    SettledProgram(c, around.programs);
    var o := ds[p];
    assert Synced(root, c, o);
    forall k | k in Needs(ds, o) ensures k in c {
      PrecedesInCluster(root, ds, c, k, p);
    }
    GateOpens(ds, c, o);
    NothingToRecord(root, ds, c, p);
    hide GateOf, ServiceToRecordOn, Needs, Blocked, NeedsPrecede, Settled, Synced, MergedRoutes;
  }

  lemma {:induction false} ServiceWaits(root: Root, ds: seq<Object>, c: Cluster, i: nat, j: nat, m: nat, t: nat)
    requires Settled(c) && NeedsPrecede(ds) && Blocked(root, ds, c, i, j, m, t)
    ensures GateOf(ds, c, ds[i], {}) == WaitFor(KongTarget)
  {
    var s := ds[i];
    var k := Sibling(ds[t], KongUpstream, ds[t].upstreamRef);
    assert k in Needs(ds, ds[t]);
    var q :| 0 <= q < t && ds[q].key == k;
    assert ds[q] in ds && UpstreamDesired(ds, s.host);
    var up := Sibling(s, KongUpstream, s.host);
    assert up in Needs(ds, s);
    PrecedesInCluster(root, ds, c, up, i);
    TargetsOfContains(ds, s.host, ds[t]);
    MissingHoldsBack(TargetsOf(ds, s.host), c, ds[t]);
  }

  lemma {:induction false} MissingHoldsBack(targets: seq<Object>, c: Cluster, t: Object)
    requires t in targets && t.key !in c
    ensures TargetsGate(targets, c, {}) == WaitFor(KongTarget)
  {
    if targets[0] != t {
      assert t in targets[1..];
      MissingHoldsBack(targets[1..], c, t);
    }
  }

  lemma {:induction false} WaitsAtService(root: Root, ds: seq<Object>, c: Cluster, l: Loop, i: nat, j: nat, m: nat,
                                          t: nat, around: Around)
    requires Settled(c) && NeedsPrecede(ds) && Blocked(root, ds, c, i, j, m, t) && Quiet([around])
    requires Waiting(ds, c, l, i, i, j, m)
    ensures var out := Iterate(root, ds, l, ds[i], around); out.Running? && Waiting(ds, c, out.loop, i + 1, i, j, m)
  {
    assert around in [around];
    SettledProgram(c, around.programs);
    ServiceWaits(root, ds, c, i, j, m, t);
    assert i < j < m && ds[i].key.kind.KongService?;
    hide GateOf, Needs, Blocked, NeedsPrecede, Settled, IsTargetOf;
  }

  /** A target between the service and `m` is in place, and is passed over unless its own upstream is
      the missing one. */
  lemma {:induction false} TargetGate(root: Root, ds: seq<Object>, c: Cluster, p: nat, i: nat, j: nat, m: nat, t: nat)
    requires DistinctKeys(ds) && Settled(c) && NeedsPrecede(ds) && Blocked(root, ds, c, i, j, m, t)
    requires i < p <= m && ds[p].key.kind.KongTarget?
    ensures (p < m && GateOf(ds, c, ds[p], {}).Pass? && Synced(root, c, ds[p]))
        || (j < p && GateOf(ds, c, ds[p], {}) == WaitFor(KongUpstream))
  {
    var o := ds[p];
    var k := Sibling(o, KongUpstream, o.upstreamRef);
    if o.upstreamRef != "" && k !in c {
      assert k in Needs(ds, o);
      assert k == ds[j].key;
      var q :| 0 <= q < p && ds[q].key == k;
      assert q == j;
    }
  }

  lemma {:induction false} WaitsAfterService(root: Root, ds: seq<Object>, c: Cluster, l: Loop, p: nat, i: nat, j: nat,
                                             m: nat, t: nat, around: Around)
    requires DistinctKeys(ds) && Settled(c) && NeedsPrecede(ds) && Blocked(root, ds, c, i, j, m, t) && Quiet([around])
    requires i < p < |ds| && Waiting(ds, c, l, p, i, j, m)
    ensures var out := Iterate(root, ds, l, ds[p], around); out.Running? && Waiting(ds, c, out.loop, p + 1, i, j, m)
  {
    assert around in [around];
    SettledProgram(c, around.programs);
    var o := ds[p];
    if o.key.kind.KongTarget? && p <= m {
      TargetGate(root, ds, c, p, i, j, m, t);
      assert Synced(root, c, o) ==> !c[o.key].deleting;
      hide GateOf, MergedRoutes, Needs, NeedsPrecede, DistinctKeys, Settled;
    } else {
      assert j < p && o.key.kind.KongUpstream? ==> Synced(root, c, o);
      hide MergedRoutes, Needs, NeedsPrecede, DistinctKeys, Settled;
    }
  }

  lemma {:induction false} WaitsThroughout(root: Root, ds: seq<Object>, c: Cluster, l: Loop, p: nat, i: nat, j: nat,
                                           m: nat, t: nat, arounds: seq<Around>)
    requires DistinctKeys(ds) && Settled(c) && NeedsPrecede(ds) && Blocked(root, ds, c, i, j, m, t)
    requires p <= |ds| == |arounds| && Quiet(arounds) && Waiting(ds, c, l, p, i, j, m)
    ensures var out := EnforceFrom(root, ds, p, l, arounds); out.Running? && Waiting(ds, c, out.loop, |ds|, i, j, m)
    decreases |ds| - p
  {
    hide Blocked, Waiting, Iterate, DistinctKeys, Settled, NeedsPrecede;
    if p < |ds| {
      assert Quiet([arounds[p]]) by {
        assert arounds[p] in arounds;
      }
      hide Quiet;
      if p < i {
        WaitsBeforeService(root, ds, c, l, p, i, j, m, t, arounds[p]);
      } else if p == i {
        WaitsAtService(root, ds, c, l, i, j, m, t, arounds[p]);
      } else {
        WaitsAfterService(root, ds, c, l, p, i, j, m, t, arounds[p]);
      }
      WaitsThroughout(root, ds, c, Iterate(root, ds, l, ds[p], arounds[p]).loop, p + 1, i, j, m, t, arounds);
    }
  }

  /** No undisturbed pass writes anything, and every one reports that it waits. */
  ghost predicate Stuck(root: Root, ds: seq<Object>, c: Cluster) {
    && Settled(c) && !AllSynced(root, ds, c)
    && forall arounds :: |arounds| == |ds| && Quiet(arounds) ==>
         var out := Enforce(root, ds, c, arounds);
         out.Running? && out.loop.cluster == c && out.loop.created == out.loop.updated == 0 && out.loop.skipped > 0
  }

  lemma {:induction false} BlockedIsStuck(root: Root, ds: seq<Object>, c: Cluster, i: nat, j: nat, m: nat, t: nat)
    requires DistinctKeys(ds) && Settled(c) && NeedsPrecede(ds) && Blocked(root, ds, c, i, j, m, t)
    ensures Stuck(root, ds, c)
  {
    assert ds[t] in ds && !Synced(root, c, ds[t]);
    forall arounds | |arounds| == |ds| && Quiet(arounds)
      ensures var out := Enforce(root, ds, c, arounds);
        out.Running? && out.loop.cluster == c && out.loop.created == out.loop.updated == 0 && out.loop.skipped > 0
    {
      WaitsThroughout(root, ds, c, Start(c), 0, i, j, m, t, arounds);
      assert i < |ds|;
      hide Blocked, EnforceFrom, DistinctKeys, NeedsPrecede, Settled;
    }
  }

  lemma {:induction false} StuckForever(root: Root, ds: seq<Object>, c: Cluster, rounds: seq<seq<Around>>)
    requires Stuck(root, ds, c) && forall r :: r in rounds ==> |r| == |ds| && Quiet(r)
    ensures Rounds(root, ds, c, rounds) == c
    decreases |rounds|
  {
    if rounds != [] {
      assert rounds[0] in rounds && forall r :: r in rounds[1..] ==> r in rounds;
      var out := Enforce(root, ds, c, rounds[0]);
      assert out.Running? && out.loop.cluster == c;
      SettledProgram(c, c.Keys);
      hide Enforce, Quiet, Settled, AllSynced;
      StuckForever(root, ds, c, rounds[1..]);
    }
  }

  // ---------------------------------------------------------------- the exact condition

  /** The objects that are in place, all but those with the given keys. */
  function InPlace(root: Root, ds: seq<Object>, missing: set<Key>): Cluster {
    if ds == [] then map[]
    else
      var c, o := InPlace(root, ds[..|ds| - 1], missing), ds[|ds| - 1];
      if o.key in missing then c else c[o.key := Existing(o, MergedRoutes(root, ""), true, false)]
  }

  lemma {:induction false} InPlaceIsSettled(root: Root, ds: seq<Object>, missing: set<Key>)
    requires PlainRoot(root) && DistinctKeys(ds)
    ensures var c := InPlace(root, ds, missing);
      && Settled(c) && (forall k :: k in c ==> k !in missing && KeyIn(ds, k))
      && forall i :: 0 <= i < |ds| && ds[i].key !in missing ==> Synced(root, c, ds[i])
  {
    if ds != [] {
      var n := |ds| - 1;
      var init, o := ds[..n], ds[n];
      InPlaceIsSettled(root, init, missing);
      var b, c := InPlace(root, init, missing), InPlace(root, ds, missing);
      assert ds == init + [o];
      KeyInGrows(init, o);
      if root.Route? {
        MergeKeepsOtherRoutes("", root.routeRef);
      }
      forall i | 0 <= i < |ds| && ds[i].key !in missing ensures Synced(root, c, ds[i]) {
        if i < n {
          assert Synced(root, b, init[i]) && ds[i].key != o.key;
        }
      }
    }
  }

  predicate AllBut(root: Root, ds: seq<Object>, c: Cluster, missing: set<Key>) {
    && (forall k :: k in c ==> k !in missing)
    && forall i :: 0 <= i < |ds| && ds[i].key !in missing ==> Synced(root, c, ds[i])
  }

  lemma {:induction false} AllButBlocks(root: Root, ds: seq<Object>, c: Cluster, i: nat, j: nat, m: nat, t: nat)
    requires DistinctKeys(ds) && NeedsPrecede(ds) && i < j < m <= t < |ds| && ds[j].key.kind.KongUpstream?
    requires IsTargetOf(ds[t], ds[i]) && ds[m].key.kind.KongTarget? && ds[j].key in Needs(ds, ds[m])
    requires AllBut(root, ds, c, {ds[j].key, ds[m].key, ds[t].key})
    ensures Blocked(root, ds, c, i, j, m, t)
  {
    hide NeedsPrecede, Needs;
    forall p | i < p < m && ds[p].key.kind.KongTarget?
      ensures Synced(root, c, ds[p]) && forall n :: n in Needs(ds, ds[p]) ==> n in c || n == ds[j].key
    {
      NeedsThere(root, ds, c, j, m, t, p);
    }
    hide Synced;
    assert ds[j].key !in c && ds[t].key !in c;
  }

  lemma {:induction false} NeedsThere(root: Root, ds: seq<Object>, c: Cluster, j: nat, m: nat, t: nat, p: nat)
    requires NeedsPrecede(ds) && j < m <= t < |ds| && p < |ds| && ds[p].key.kind.KongTarget?
    requires ds[m].key.kind.KongTarget? && ds[t].key.kind.KongTarget?
    requires AllBut(root, ds, c, {ds[j].key, ds[m].key, ds[t].key})
    ensures forall n :: n in Needs(ds, ds[p]) ==> n in c || n == ds[j].key
  {
    forall n | n in Needs(ds, ds[p]) && n != ds[j].key ensures n in c {
      var q :| 0 <= q < p && ds[q].key == n;
      assert n.kind.KongUpstream?;
      assert Synced(root, c, ds[q]);
    }
  }

  lemma {:induction false} ViolationBlocks(root: Root, ds: seq<Object>, i: nat, m: nat, t: nat, k: Key)
    returns (c: Cluster, j: nat)
    requires PlainRoot(root) && DistinctKeys(ds) && NeedsPrecede(ds)
    requires i < m <= t < |ds| && IsTargetOf(ds[t], ds[i]) && ds[m].key.kind.KongTarget?
    requires k in Needs(ds, ds[m]) && !Precedes(ds, k, i)
    ensures Settled(c) && Blocked(root, ds, c, i, j, m, t)
  {
    j := LateUpstream(ds, i, m, k);
    hide Needs, Synced, DistinctKeys, NeedsPrecede, Precedes, IsTargetOf, Blocked;
    c := InPlace(root, ds, {ds[j].key, ds[m].key, ds[t].key});
    InPlaceIsSettled(root, ds, {ds[j].key, ds[m].key, ds[t].key});
    hide InPlace, Settled;
    AllButBlocks(root, ds, c, i, j, m, t);
  }

  lemma {:induction false} LateUpstream(ds: seq<Object>, i: nat, m: nat, k: Key) returns (j: nat)
    requires NeedsPrecede(ds) && i < m < |ds| && ds[i].key.kind.KongService? && ds[m].key.kind.KongTarget?
    requires k in Needs(ds, ds[m]) && !Precedes(ds, k, i)
    ensures i < j < m && ds[j].key == k && k.kind.KongUpstream?
  {
    j :| 0 <= j < m && ds[j].key == k;
    assert k.kind.KongUpstream?;
  }

  /** From every settled cluster, as many undisturbed rounds as there are objects to enforce suffice. */
  ghost predicate Converges(root: Root, ds: seq<Object>) {
    forall c, rounds :: Settled(c) && Quieted(ds, rounds) && |rounds| >= Unsynced(root, ds, c) ==>
          AllSynced(root, ds, Rounds(root, ds, c, rounds))
  }

  predicate Quieted(ds: seq<Object>, rounds: seq<seq<Around>>) {
    forall r :: r in rounds ==> |r| == |ds| && Quiet(r)
  }

  lemma {:induction false} QuietRounds(ds: seq<Object>, n: nat) returns (rounds: seq<seq<Around>>)
    ensures |rounds| == n && Quieted(ds, rounds)
  {
    var round := seq(|ds|, _ => Around({}, {}, false, false));
    rounds := seq(n, _ => round);
  }

  /** For a list whose objects stand after what they need, convergence from every settled cluster and
      the order of services and targets are the same thing. */
  lemma {:induction false} ConvergesIffWellOrdered(root: Root, ds: seq<Object>)
    requires PlainRoot(root) && DistinctKeys(ds) && NeedsPrecede(ds)
    ensures Converges(root, ds) <==> WellOrdered(ds)
  {
    if WellOrdered(ds) {
      forall c, rounds | Settled(c) && Quieted(ds, rounds) && |rounds| >= Unsynced(root, ds, c)
        ensures AllSynced(root, ds, Rounds(root, ds, c, rounds))
      {
        EnforcementConverges(root, ds, c, rounds);
      }
    } else {
      var i, m, t, k :| 0 <= i < m <= t < |ds| && IsTargetOf(ds[t], ds[i]) && ds[m].key.kind.KongTarget?
                        && k in Needs(ds, ds[m]) && !Precedes(ds, k, i);
      var c, j := ViolationBlocks(root, ds, i, m, t, k);
      BlockedIsStuck(root, ds, c, i, j, m, t);
      var rounds := QuietRounds(ds, Unsynced(root, ds, c));
      StuckForever(root, ds, c, rounds);
    }
  }

  // ---------------------------------------------------------------- a second parent in another namespace

  /** What adding a parent leaves in place of the objects translated before: everything up to the
      service at `i`, and whatever is not renamed.  With a second parent the names of KongRoutes, and of
      the bindings to them, begin to tell parents apart. */
  predicate StillInPlace(root: Root, ds: seq<Object>, c: Cluster, i: nat) {
    && i <= |ds| && SyncedUpTo(root, ds, c, i)
    && forall o :: o in ds && !o.key.kind.KongRoute? && !o.key.kind.KongPluginBinding? ==> Synced(root, c, o)
  }

  /** A target among the objects in place, and what it needs. */
  lemma {:induction false} OldTarget(root: Root, first: seq<Object>, c: Cluster, i: nat, p: nat)
    requires WellOrdered(first) && StillInPlace(root, first, c, i) && p < |first| && first[p].key.kind.KongTarget?
    ensures Synced(root, c, first[p]) && forall k :: k in Needs(first, first[p]) ==> k in c
  {
    assert first[p] in first;
    forall k | k in Needs(first, first[p]) ensures k in c {
      var q :| 0 <= q < p && first[q].key == k;
      assert first[q] in first;
    }
  }

  lemma {:induction false} TargetsBefore(root: Root, first: seq<Object>, b: Block, i: nat, c: Cluster, t: nat)
    requires WellOrdered(first) && BlockShape(b) && StillInPlace(root, first, c, i)
    requires t <= |first| + 2 + |b.prelude| + |b.middle|
    ensures var ds := first + Flat(b);
      t <= |ds| && forall p :: 0 <= p < t && ds[p].key.kind.KongTarget? ==>
        Synced(root, c, ds[p]) && forall k :: k in Needs(ds, ds[p]) ==> k in c
  {
    var ds := first + Flat(b);
    assert t <= |ds|;
    hide WellOrdered, BlockShape, Flat, StillInPlace, Synced;
    forall p | 0 <= p < t && ds[p].key.kind.KongTarget?
      ensures Synced(root, c, ds[p]) && forall k :: k in Needs(ds, ds[p]) ==> k in c
    {
      if p < |first| {
        OldTarget(root, first, c, i, p);
        assert Needs(ds, ds[p]) == Needs(first, first[p]);
      } else {
        BeforeTargets(b, p - |first|);
      }
    }
  }

  lemma {:induction false} AddedBlockIsStuck(root: Root, first: seq<Object>, b: Block, i: nat, c: Cluster)
    requires WellOrdered(first) && BlockShape(b) && b.targets != []
    requires DistinctKeys(first + Flat(b)) && NeedsPrecede(first + Flat(b))
    requires i < |first| && first[i].key.kind.KongService? && first[i].host == b.upstream.key.name != ""
    requires Settled(c) && StillInPlace(root, first, c, i) && forall o :: o in Flat(b) ==> o.key !in c
    ensures Stuck(root, first + Flat(b), c)
  {
    var f := Flat(b);
    var ds := first + f;
    var j := |first|;
    var t := |first| + 2 + |b.prelude| + |b.middle|;
    assert ds[j] == b.upstream && f[0] == b.upstream && f[0] in f;
    assert ds[t] == b.targets[0] && f[t - j] == b.targets[0] && f[t - j] in f && b.targets[0] in b.targets;
    TargetsBefore(root, first, b, i, c, t);
    forall p | j < p < |ds| ensures !ds[p].key.kind.KongUpstream? {
      TargetsComeLast(b, p - j);
    }
    AddedBlocks(root, first, b, i, c, t);
    hide Flat, BlockShape, WellOrdered, StillInPlace, Synced, Settled, DistinctKeys, NeedsPrecede, Stuck;
    BlockedIsStuck(root, ds, c, i, j, t, t);
  }

  /** The parts of Blocked that speak about the ends of the list. */
  lemma {:induction false} AddedBlocks(root: Root, first: seq<Object>, b: Block, i: nat, c: Cluster, t: nat)
    requires BlockShape(b) && b.targets != [] && t == |first| + 2 + |b.prelude| + |b.middle|
    requires i < |first| && first[i].key.kind.KongService? && first[i].host == b.upstream.key.name != ""
    requires StillInPlace(root, first, c, i)
    ensures var ds := first + Flat(b);
      && t < |ds| && SyncedUpTo(root, ds, c, i) && IsTargetOf(ds[t], ds[i])
      && ds[|first|].key.kind.KongUpstream? && ds[|first|].key in Needs(ds, ds[t])
  {
    var f := Flat(b);
    var ds := first + f;
    assert f[t - |first|] == b.targets[0] && f[t - |first|] in f && b.targets[0] in b.targets;
    assert f[0] == b.upstream && f[0] in f;
    assert forall p :: 0 <= p < i ==> ds[p] == first[p];
  }

  lemma {:induction false} BeforeTargets(b: Block, p: nat)
    requires BlockShape(b) && p < 2 + |b.prelude| + |b.middle|
    ensures p < |Flat(b)| && !Flat(b)[p].key.kind.KongTarget?
  {
    var f := Flat(b);
    var s := 1 + |b.prelude|;
    if 0 < p < s {
      assert f[p] == b.prelude[p - 1] && f[p] in b.prelude;
    } else if s < p {
      assert f[p] == b.middle[p - s - 1] && MiddleShape(b, p - s - 1);
    }
  }

  lemma {:induction false} DedupOfNew(a: seq<Object>, f: seq<Object>)
    requires DistinctKeys(f) && forall o :: o in f ==> !KeyIn(a, o.key)
    ensures Dedup(a + f) == Dedup(a) + f
  {
    if f == [] {
      assert a + f == a;
    } else {
      var n := |f| - 1;
      assert (a + f)[..|a + f| - 1] == a + f[..n];
      DedupOfNew(a, f[..n]);
      KeyInConcat(a, f[..n], f[n].key);
      assert f == f[..n] + [f[n]];
    }
  }

  /** Everything translated so far is in place, but for what an added parent renames, and the parent adds a
      block whose upstream has the name of an earlier one in another namespace, as when two Gateways in two
      namespaces have control planes of the same name: the name of an upstream leaves out the namespace.
      The earlier service now waits for the new targets too, and no pass writes anything any more. */
  lemma {:induction false} SecondNamespaceIsStuck(root: Root, bs: seq<Block>, b: Block, i: nat, c: Cluster)
    requires (forall x :: x in bs ==> BlockShape(x)) && Compatible(bs) && BlockShape(b)
    requires DistinctKeys(Flat(b)) && (forall o :: o in Flat(b) ==> !KeyIn(Flatten(bs), o.key)) && b.targets != []
    requires var ds := Dedup(Flatten(bs));
      && i < |ds| && ds[i].key.kind.KongService? && ds[i].host == b.upstream.key.name != ""
      && Settled(c) && StillInPlace(root, ds, c, i) && forall o :: o in Flat(b) ==> o.key !in c
    ensures Stuck(root, Dedup(Flatten(bs + [b])), c)
  {
    var a, f := Flatten(bs), Flat(b);
    assert (bs + [b])[..|bs|] == bs;
    assert Flatten(bs + [b]) == a + f;
    TranslationIsWellOrdered(bs);
    BlocksAreOrdered(a + f, bs);
    AppendNeeds(a + f, a, b);
    hide BlockShape, Compatible, Flat, Flatten, Needs, Settled, Stuck, StillInPlace;
    DedupKeepsPrecedence(a + f);
    DistinctAfterDedup(a + f);
    DedupOfNew(a, f);
    AddedBlockIsStuck(root, Dedup(a), b, i, c);
  }

  lemma {:induction false} DedupKeepsPrecedence(os: seq<Object>)
    requires NeedsPrecede(os)
    ensures NeedsPrecede(Dedup(os))
  {
    forall i, k | 0 <= i < |Dedup(os)| && k in Needs(Dedup(os), Dedup(os)[i]) ensures Precedes(Dedup(os), k, i) {
      NeedsAfterDedup(os, i, k);
    }
  }
}
