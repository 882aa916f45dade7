/**
 The order in which a Route is translated is a good one: blocks "upstream, grants and certificates,
 service, routes with their plugins and bindings, targets", one for each rule and parent, of which only
 the first object with a given key is kept.
 */
module HybridBlocks {
  import opened HybridState
  import opened HybridProgress

  /** What one rule of a Route translates to under one parent. */
  datatype Block = Block(upstream: Object, prelude: seq<Object>, service: Object, middle: seq<Object>,
      targets: seq<Object>)

  function Flat(b: Block): seq<Object> {
    [b.upstream] + b.prelude + [b.service] + b.middle + b.targets
  }

  function Flatten(bs: seq<Block>): seq<Object> {
    if bs == [] then [] else Flatten(bs[..|bs| - 1]) + Flat(bs[|bs| - 1])
  }

  predicate KeyIn(os: seq<Object>, k: Key) {
    exists j :: 0 <= j < |os| && os[j].key == k
  }

  /** The kinds of a block and its references, which all stay inside the block.  Everything but the
      grants is in the namespace of the block's parent. */
  predicate BlockShape(b: Block) {
    var ns := b.upstream.key.namespace;
    && b.upstream.key.kind.KongUpstream? && b.service.key.kind.KongService?
    && b.service.host == b.upstream.key.name
    && (forall o :: o in Flat(b) && !o.key.kind.KongReferenceGrant? ==> o.key.namespace == ns)
    && (forall o :: o in b.prelude ==> o.key.kind.KongReferenceGrant? || o.key.kind.KongCertificate?)
    && (b.service.clientCertificate != "" ==> KeyIn(b.prelude, Key(KongCertificate, ns, b.service.clientCertificate)))
    && (forall i :: 0 <= i < |b.middle| ==> MiddleShape(b, i))
    && (forall o :: o in b.targets ==> o.key.kind.KongTarget? && o.upstreamRef == b.upstream.key.name)
  }

  predicate MiddleShape(b: Block, i: nat)
    requires i < |b.middle|
  {
    var o := b.middle[i];
    var ns := b.upstream.key.namespace;
    && (o.key.kind.KongRoute? || o.key.kind.KongPlugin? || o.key.kind.KongPluginBinding?)
    && (o.key.kind.KongRoute? && o.serviceRef != "" ==> o.serviceRef == b.service.key.name)
    && (o.key.kind.KongPluginBinding? && o.bindsRoute != "" ==> KeyIn(b.middle[..i], Key(KongRoute, ns, o.bindsRoute)))
    && (o.key.kind.KongPluginBinding? && o.bindsKongService && o.bindsService != "" ==>
           o.bindsService == b.service.key.name)
  }

  /** Blocks whose upstreams have the same name, which is made from the control plane and the backends,
      have the same targets. */
  predicate Compatible(bs: seq<Block>) {
    forall b, c, o :: b in bs && c in bs && b.upstream.key.name == c.upstream.key.name && o in c.targets ==>
          KeyIn(b.targets, o.key)
  }

  // ---------------------------------------------------------------- deduplication

  function Dedup(os: seq<Object>): seq<Object> {
    if os == [] then []
    else
      var init, o := os[..|os| - 1], os[|os| - 1];
      Dedup(init) + if KeyIn(init, o.key) then [] else [o]
  }

  /** deduplicateOutputStore. */
  method DeduplicateOutputStore(objects: seq<Object>) returns (deduplicated: seq<Object>)
    ensures deduplicated == Dedup(objects)
  {
    if |objects| < 2 {
      assert |objects| == 1 ==>
            objects == objects[..0] + [objects[0]] && !KeyIn(objects[..0], objects[0].key) && Dedup(objects[..0]) == [];
      return objects;
    }
    var seen: set<Key> := {};
    deduplicated := [];
    for i := 0 to |objects|
      invariant deduplicated == Dedup(objects[..i])
      invariant forall k :: k in seen <==> KeyIn(objects[..i], k)
    {
      var o := objects[i];
      assert objects[..i + 1][..i] == objects[..i] && objects[..i + 1][i] == o;
      assert forall k :: KeyIn(objects[..i + 1], k) <==> KeyIn(objects[..i], k) || k == o.key by {
        KeyInGrows(objects[..i], o);
        assert objects[..i + 1] == objects[..i] + [o];
      }
      if o.key in seen {
        continue;
      }
      seen := seen + {o.key};
      deduplicated := deduplicated + [o];
    }
    assert objects[..|objects|] == objects;
  }

  lemma {:induction false} KeyInGrows(os: seq<Object>, o: Object)
    ensures forall k :: KeyIn(os + [o], k) <==> KeyIn(os, k) || k == o.key
  {
    forall k ensures KeyIn(os + [o], k) <==> KeyIn(os, k) || k == o.key {
      if KeyIn(os, k) {
        var j :| 0 <= j < |os| && os[j].key == k;
        assert (os + [o])[j].key == k;
      }
      if k == o.key {
        assert (os + [o])[|os|].key == k;
      }
    }
  }

  predicate First(os: seq<Object>, i: nat) {
    i < |os| && forall j :: 0 <= j < i ==> os[j].key != os[i].key
  }

  /** The positions that deduplication keeps. */
  function Kept(os: seq<Object>): (ps: seq<nat>)
    ensures |ps| == |Dedup(os)|
    ensures forall j :: 0 <= j < |ps| ==> First(os, ps[j]) && os[ps[j]] == Dedup(os)[j]
    ensures forall i, j :: 0 <= i < j < |ps| ==> ps[i] < ps[j]
  {
    if os == [] then []
    else
      var n := |os| - 1;
      var ps := Kept(os[..n]);
      assert forall j :: 0 <= j < |ps| ==> First(os[..n], ps[j]) && ps[j] < n && os[..n][ps[j]] == os[ps[j]];
      assert forall j :: 0 <= j < |ps| ==> First(os, ps[j]);
      if KeyIn(os[..n], os[n].key) then ps
      else
        assert forall j :: 0 <= j < n ==> os[..n][j].key == os[j].key;
        ps + [n]
  }

  /** Every key is kept at its first position. */
  lemma {:induction false} FirstIsKept(os: seq<Object>, p: nat) returns (j: nat)
    requires First(os, p)
    ensures j < |Kept(os)| && Kept(os)[j] == p
  {
    var n := |os| - 1;
    if p == n {
      assert forall q :: 0 <= q < n ==> os[..n][q].key == os[q].key;
      assert !KeyIn(os[..n], os[n].key);
      j := |Kept(os)| - 1;
    } else {
      assert First(os[..n], p);
      j := FirstIsKept(os[..n], p);
    }
  }

  /** Deduplication keeps, in order, exactly the objects before which there is none with their kind,
      namespace and name. */
  lemma {:induction false} KeepsTheFirsts(os: seq<Object>) returns (ps: seq<nat>)
    ensures |ps| == |Dedup(os)| && forall j :: 0 <= j < |ps| ==> ps[j] < |os| && Dedup(os)[j] == os[ps[j]]
    ensures forall i, j :: 0 <= i < j < |ps| ==> ps[i] < ps[j]
    ensures forall p :: 0 <= p < |os| ==> (p in ps <==> forall q :: 0 <= q < p ==> os[q].key != os[p].key)
  {
    ps := Kept(os);
    hide Dedup, Kept;
    forall p | 0 <= p < |os| ensures p in ps <==> forall q :: 0 <= q < p ==> os[q].key != os[p].key {
      if First(os, p) {
        var j := FirstIsKept(os, p);
        assert ps[j] == p;
      }
      if p in ps {
        var j :| 0 <= j < |ps| && ps[j] == p;
        assert First(os, ps[j]);
      }
    }
  }

  lemma {:induction false} FirstOf(os: seq<Object>, k: Key, i: nat) returns (p: nat)
    requires i <= |os| && Precedes(os, k, i)
    ensures p < i && First(os, p) && os[p].key == k
  {
    p :| 0 <= p < i && os[p].key == k;
    if q :| 0 <= q < p && os[q].key == k {
      p := FirstOf(os, k, p);
    }
  }

  lemma {:induction false} PrecedesAfterDedup(os: seq<Object>, k: Key, i: nat)
    requires i < |Dedup(os)| && Precedes(os, k, Kept(os)[i])
    ensures Precedes(Dedup(os), k, i)
  {
    var p := FirstOf(os, k, Kept(os)[i]);
    var j := FirstIsKept(os, p);
    assert j < i;
    assert Dedup(os)[j].key == k;
  }

  lemma {:induction false} UpstreamsAfterDedup(os: seq<Object>, n: string)
    ensures UpstreamDesired(Dedup(os), n) <==> UpstreamDesired(os, n)
  {
    if UpstreamDesired(Dedup(os), n) {
      var d :| d in Dedup(os) && d.key.kind.KongUpstream? && d.key.name == n;
      var j :| 0 <= j < |Dedup(os)| && Dedup(os)[j] == d;
      assert os[Kept(os)[j]] == d;
    }
    if UpstreamDesired(os, n) {
      var d :| d in os && d.key.kind.KongUpstream? && d.key.name == n;
      var i :| 0 <= i < |os| && os[i] == d;
      var p := FirstOf(os, d.key, i + 1);
      var j := FirstIsKept(os, p);
      assert Dedup(os)[j].key == d.key;
    }
  }

  lemma {:induction false} SameNeedsAfterDedup(os: seq<Object>, o: Object)
    ensures Needs(Dedup(os), o) == Needs(os, o)
  {
    UpstreamsAfterDedup(os, o.host);
    hide UpstreamDesired, Dedup;
  }

  // ---------------------------------------------------------------- one block

  lemma {:induction false} PreludeHasNoNeeds(ds: seq<Object>, b: Block, p: nat)
    requires BlockShape(b) && p < 1 + |b.prelude|
    ensures Needs(ds, Flat(b)[p]) == {}
  {
    var f := Flat(b);
    if p > 0 {
      assert f[p] == b.prelude[p - 1] && f[p] in b.prelude;
    }
  }

  /** Position `p` of a block: everything it needs stands before it in the block. */
  lemma {:induction false} NeedsInsideBlock(ds: seq<Object>, b: Block, p: nat, k: Key)
    requires BlockShape(b) && p < |Flat(b)| && k in Needs(ds, Flat(b)[p])
    ensures Precedes(Flat(b), k, p)
    ensures Flat(b)[p].key.kind.KongTarget? ==> k == b.upstream.key
  {
    var f := Flat(b);
    var s := 1 + |b.prelude|;
    assert f[p] in f && b.upstream in f && b.service in f;
    assert f[0] == b.upstream && f[s] == b.service;
    if p < s {
      PreludeHasNoNeeds(ds, b, p);
    } else if p == s {
      if k != b.upstream.key {
        var j :| 0 <= j < |b.prelude| && b.prelude[j].key == k;
        assert f[1 + j] == b.prelude[j];
      }
    } else if p < s + 1 + |b.middle| {
      var i := p - s - 1;
      assert f[p] == b.middle[i] && MiddleShape(b, i);
      if k != b.service.key {
        var j :| 0 <= j < |b.middle[..i]| && b.middle[..i][j].key == k;
        assert f[s + 1 + j] == b.middle[j];
      }
    } else {
      assert f[p] == b.targets[p - s - 1 - |b.middle|] && f[p] in b.targets;
    }
  }

  lemma {:induction false} PrecedesShifts(a: seq<Object>, b: seq<Object>, k: Key, p: nat)
    requires p <= |b| && Precedes(b, k, p)
    ensures Precedes(a + b, k, |a| + p)
  {
    var j :| 0 <= j < p && b[j].key == k;
    assert (a + b)[|a| + j].key == k;
  }

  /** In a block a service stands at one place only, after its upstream, and targets come last. */
  lemma {:induction false} TargetsComeLast(b: Block, p: nat)
    requires BlockShape(b) && p < |Flat(b)|
    ensures Flat(b)[p].key.kind.KongUpstream? ==> p == 0
    ensures Flat(b)[p].key.kind.KongService? ==> p == 1 + |b.prelude| && Flat(b)[p] == b.service
    ensures Flat(b)[p].key.kind.KongTarget? ==>
      p > 1 + |b.prelude| && Flat(b)[p] in b.targets && Flat(b)[p].upstreamRef == b.upstream.key.name
  {
    var f := Flat(b);
    var s := 1 + |b.prelude|;
    if 0 < p < s {
      assert f[p] == b.prelude[p - 1] && f[p] in b.prelude;
    } else if s < p < s + 1 + |b.middle| {
      assert f[p] == b.middle[p - s - 1] && MiddleShape(b, p - s - 1);
    } else if p > s {
      assert f[p] == b.targets[p - s - 1 - |b.middle|] && f[p] in b.targets;
    }
  }

  // ---------------------------------------------------------------- all blocks, with repetitions

  /** The service comes from a block of the list. */
  ghost predicate FromBlock(bs: seq<Block>, ds: seq<Object>, o: Object) {
    exists b :: b in bs && b.upstream.key.name == o.host && forall t :: t in b.targets ==> KeyIn(ds, t.key)
  }

  /** What an object needs in a desired list stands before it. */
  predicate Ordered(all: seq<Object>, ds: seq<Object>) {
    forall i, k :: 0 <= i < |ds| && k in Needs(all, ds[i]) ==> Precedes(ds, k, i)
  }

  /** The order is good for any desired list, as far as first positions of targets go. */
  ghost predicate Good(all: seq<Object>, bs: seq<Block>, ds: seq<Object>) {
    && (forall i :: 0 <= i < |ds| && ds[i].key.kind.KongService? ==> FromBlock(bs, ds, ds[i]))
    && Ordered(all, ds)
    && (forall i, m, t ::
           0 <= i < m <= t < |ds| && First(ds, t) && IsTargetOf(ds[t], ds[i]) && ds[m].key.kind.KongTarget? ==>
          forall k :: k in Needs(all, ds[m]) ==> Precedes(ds, k, i))
  }

  lemma {:induction false} KeyInConcat(a: seq<Object>, b: seq<Object>, k: Key)
    ensures KeyIn(a + b, k) <==> KeyIn(a, k) || KeyIn(b, k)
  {
    if KeyIn(a, k) {
      var j :| 0 <= j < |a| && a[j].key == k;
      assert (a + b)[j].key == k;
    }
    if KeyIn(b, k) {
      var j :| 0 <= j < |b| && b[j].key == k;
      assert (a + b)[|a| + j].key == k;
    }
  }

  lemma {:induction false} TargetsInBlock(b: Block, o: Object)
    requires o in b.targets
    ensures KeyIn(Flat(b), o.key)
  {
    var j :| 0 <= j < |b.targets| && b.targets[j] == o;
    assert Flat(b)[2 + |b.prelude| + |b.middle| + j] == o;
  }

  lemma {:induction false} AppendServices(all: seq<Object>, bs: seq<Block>, a: seq<Object>, b: Block, i: nat)
    requires Good(all, bs, a) && BlockShape(b) && i < |a + Flat(b)| && (a + Flat(b))[i].key.kind.KongService?
    ensures FromBlock(bs + [b], a + Flat(b), (a + Flat(b))[i])
  {
    var ds := a + Flat(b);
    if i < |a| {
      assert FromBlock(bs, a, a[i]);
      var c :| c in bs && c.upstream.key.name == a[i].host && forall t :: t in c.targets ==> KeyIn(a, t.key);
      forall t | t in c.targets ensures KeyIn(ds, t.key) {
        KeyInConcat(a, Flat(b), t.key);
      }
      assert c in bs + [b];
    } else {
      TargetsComeLast(b, i - |a|);
      forall t | t in b.targets ensures KeyIn(ds, t.key) {
        TargetsInBlock(b, t);
        KeyInConcat(a, Flat(b), t.key);
      }
      assert b in bs + [b];
    }
  }

  lemma {:induction false} AppendNeeds(all: seq<Object>, a: seq<Object>, b: Block)
    requires Ordered(all, a) && BlockShape(b)
    ensures Ordered(all, a + Flat(b))
  {
    var ds := a + Flat(b);
    forall i, k | 0 <= i < |ds| && k in Needs(all, ds[i]) ensures Precedes(ds, k, i) {
      if i < |a| {
        var j :| 0 <= j < i && a[j].key == k;
        assert ds[j].key == k;
      } else {
        NeedsInsideBlock(all, b, i - |a|, k);
        PrecedesShifts(a, Flat(b), k, i - |a|);
      }
    }
  }

  /** Whatever the blocks, what an object needs stands before it. */
  lemma {:induction false} BlocksAreOrdered(all: seq<Object>, bs: seq<Block>)
    requires forall b :: b in bs ==> BlockShape(b)
    ensures Ordered(all, Flatten(bs))
  {
    if bs != [] {
      BlocksAreOrdered(all, bs[..|bs| - 1]);
      AppendNeeds(all, Flatten(bs[..|bs| - 1]), bs[|bs| - 1]);
    }
  }

  /** A target of an earlier service is not new in a later block. */
  lemma {:induction false} LaterTargetsAreOld(all: seq<Object>, bs: seq<Block>, a: seq<Object>, b: Block, i: nat,
                                              o: Object)
    requires Good(all, bs, a) && Compatible(bs + [b])
    requires i < |a| && a[i].key.kind.KongService? && o in b.targets && a[i].host == b.upstream.key.name
    ensures KeyIn(a, o.key)
  {
    assert FromBlock(bs, a, a[i]);
    var c :| c in bs && c.upstream.key.name == a[i].host && forall t :: t in c.targets ==> KeyIn(a, t.key);
    assert c in bs + [b] && b in bs + [b];
    var j :| 0 <= j < |c.targets| && c.targets[j].key == o.key;
    assert c.targets[j] in c.targets;
  }

  lemma {:induction false} FirstIsNew(a: seq<Object>, f: seq<Object>, t: nat)
    requires |a| <= t && First(a + f, t)
    ensures !KeyIn(a, (a + f)[t].key)
  {
    assert forall j :: 0 <= j < |a| ==> (a + f)[j] == a[j];
  }

  lemma {:induction false} NewTargetHasNewService(all: seq<Object>, bs: seq<Block>, a: seq<Object>, b: Block, i: nat,
                                                  t: nat)
    requires Good(all, bs, a) && BlockShape(b) && Compatible(bs + [b])
    requires var ds := a + Flat(b); i < t < |ds| && |a| <= t && First(ds, t) && IsTargetOf(ds[t], ds[i])
    ensures |a| <= i
  {
    FirstIsNew(a, Flat(b), t);
    TargetsComeLast(b, t - |a|);
    hide Good, BlockShape, Compatible, First;
    if i < |a| {
      LaterTargetsAreOld(all, bs, a, b, i, (a + Flat(b))[t]);
    }
  }

  lemma {:induction false} AppendTargets(all: seq<Object>, bs: seq<Block>, a: seq<Object>, b: Block, i: nat, m: nat,
                                         t: nat, k: Key)
    requires Good(all, bs, a) && BlockShape(b) && Compatible(bs + [b])
    requires var ds := a + Flat(b);
      i < m <= t < |ds| && First(ds, t) && IsTargetOf(ds[t], ds[i]) && ds[m].key.kind.KongTarget?
          && k in Needs(all, ds[m])
    ensures Precedes(a + Flat(b), k, i)
  {
    var ds := a + Flat(b);
    if t < |a| {
      assert First(a, t) by {
        assert forall j :: 0 <= j < t ==> ds[j] == a[j];
      }
      var j :| 0 <= j < i && a[j].key == k;
      assert ds[j].key == k;
    } else {
      NewTargetHasNewService(all, bs, a, b, i, t);
      NeedsInsideBlock(all, b, m - |a|, k);
      TargetsComeLast(b, i - |a|);
      hide Good, BlockShape, Compatible, First, Needs;
      assert ds[|a|] == b.upstream;
    }
  }

  lemma {:induction false} AppendBlock(all: seq<Object>, bs: seq<Block>, a: seq<Object>, b: Block)
    requires Good(all, bs, a) && BlockShape(b) && Compatible(bs + [b])
    ensures Good(all, bs + [b], a + Flat(b))
  {
    var ds := a + Flat(b);
    forall i | 0 <= i < |ds| && ds[i].key.kind.KongService?
      ensures FromBlock(bs + [b], ds, ds[i])
    {
      AppendServices(all, bs, a, b, i);
    }
    AppendNeeds(all, a, b);
    forall i, m, t, k | 0 <= i < m <= t < |ds| && First(ds, t) && IsTargetOf(ds[t], ds[i])
        && ds[m].key.kind.KongTarget? && k in Needs(all, ds[m])
      ensures Precedes(ds, k, i)
    {
      AppendTargets(all, bs, a, b, i, m, t, k);
    }
  }

  lemma {:induction false} BlocksAreGood(all: seq<Object>, bs: seq<Block>)
    requires (forall b :: b in bs ==> BlockShape(b)) && Compatible(bs)
    ensures Good(all, bs, Flatten(bs))
  {
    if bs != [] {
      var init, last := bs[..|bs| - 1], bs[|bs| - 1];
      assert bs == init + [last];
      assert forall b :: b in init ==> b in bs;
      BlocksAreGood(all, init);
      AppendBlock(all, init, Flatten(init), last);
    }
  }

  lemma {:induction false} NeedsAfterDedup(os: seq<Object>, i: nat, k: Key)
    requires NeedsPrecede(os) && i < |Dedup(os)| && k in Needs(Dedup(os), Dedup(os)[i])
    ensures Precedes(Dedup(os), k, i)
  {
    SameNeedsAfterDedup(os, Dedup(os)[i]);
    assert Dedup(os)[i] == os[Kept(os)[i]];
    hide Needs, Dedup, Kept;
    PrecedesAfterDedup(os, k, i);
  }

  lemma {:induction false} GoodTargets(bs: seq<Block>, os: seq<Object>, i: nat, m: nat, t: nat, k: Key)
    requires Good(os, bs, os) && i < m <= t && First(os, t)
    requires IsTargetOf(os[t], os[i]) && os[m].key.kind.KongTarget? && k in Needs(os, os[m])
    ensures Precedes(os, k, i)
  {
    assert t < |os|;
    hide Needs, First, IsTargetOf, FromBlock;
  }

  lemma {:induction false} TargetsAfterDedup(bs: seq<Block>, os: seq<Object>, i: nat, m: nat, t: nat, k: Key)
    requires Good(os, bs, os) && i < m <= t < |Dedup(os)|
    requires var ds := Dedup(os); IsTargetOf(ds[t], ds[i]) && ds[m].key.kind.KongTarget? && k in Needs(ds, ds[m])
    ensures Precedes(Dedup(os), k, i)
  {
    hide Good, Needs, Dedup, Kept, IsTargetOf, Precedes;
    SameNeedsAfterDedup(os, Dedup(os)[m]);
    var ps := Kept(os);
    assert ps[i] < ps[m] <= ps[t] && First(os, ps[t]);
    hide First;
    GoodTargets(bs, os, ps[i], ps[m], ps[t], k);
    PrecedesAfterDedup(os, k, i);
  }

  lemma {:induction false} DistinctAfterDedup(os: seq<Object>)
    ensures DistinctKeys(Dedup(os))
  {
    var ds, ps := Dedup(os), Kept(os);
    forall i, j | 0 <= i < j < |ds| ensures ds[i].key != ds[j].key {
      assert ps[i] < ps[j] && First(os, ps[j]);
    }
  }

  lemma {:induction false} GoodAfterDedup(bs: seq<Block>, os: seq<Object>)
    requires Good(os, bs, os)
    ensures WellOrdered(Dedup(os))
  {
    var ds := Dedup(os);
    assert NeedsPrecede(os);
    hide Good, Dedup;
    DistinctAfterDedup(os);
    forall i, k | 0 <= i < |ds| && k in Needs(ds, ds[i]) ensures Precedes(ds, k, i) {
      NeedsAfterDedup(os, i, k);
    }
    forall i, m, t, k | 0 <= i < m <= t < |ds| && IsTargetOf(ds[t], ds[i]) && ds[m].key.kind.KongTarget?
        && k in Needs(ds, ds[m])
      ensures Precedes(ds, k, i)
    {
      TargetsAfterDedup(bs, os, i, m, t, k);
    }
  }

  /** A translated Route is well ordered after deduplication, so its enforcement makes progress and
      converges: rules may share backends, parents may share a control plane or stand in different
      namespaces, and grants may be anywhere. */
  lemma {:induction false} TranslationIsWellOrdered(bs: seq<Block>)
    requires (forall b :: b in bs ==> BlockShape(b)) && Compatible(bs)
    ensures WellOrdered(Dedup(Flatten(bs)))
  {
    BlocksAreGood(Flatten(bs), bs);
    GoodAfterDedup(bs, Flatten(bs));
  }
}
