/**
 Orphan cleanup of the hybrid gateway: deletes what a Route generated earlier and no longer
 desires, one kind after the other, and the place of this cleanup in a reconcile pass.
 */
module HybridCleanup {
  import opened Wrappers
  import opened HybridState
  import opened HybridProgress

  /** The orphan handler's answer for a listed object. */
  datatype Verdict = Skip | HandlerFails | MayDelete

  /** The API server's answer to a delete. */
  datatype Reply = Deleted | NotFound | Conflict | Fails

  /** A listed object, with the answers it would get. */
  datatype Item = Item(key: Key, deleting: bool, verdict: Verdict, reply: Reply)

  /** What listing one kind returns; None when the list call fails. */
  type Listing = Option<seq<Item>>

  /** An orphan that the handler does not skip. */
  predicate Orphan(desired: set<Key>, item: Item) {
    item.key !in desired && !item.verdict.Skip?
  }

  predicate CleanList(desired: set<Key>, list: Listing) {
    list.Some? && forall x :: x in list.value ==> !Orphan(desired, x)
  }

  /** How far a pass is: deletes issued so far, the counters of the current kind, and how it ended. */
  datatype Ending = GoesOn | Requeues | Errs

  datatype Work = Work(issued: seq<Key>, deletedOfKind: nat, inDeletionOfKind: nat, ending: Ending)

  function CleanItem(desired: set<Key>, wait: bool, w: Work, x: Item): Work {
    if x.key in desired || x.verdict.Skip? then w
    else if x.verdict.HandlerFails? then w.(ending := Errs)
    else if x.deleting then (if wait then w.(inDeletionOfKind := w.inDeletionOfKind + 1) else w)
    else
      var w' := w.(issued := w.issued + [x.key]);
      match x.reply
      case Deleted => w'.(deletedOfKind := w.deletedOfKind + 1)
      case NotFound => w'.(deletedOfKind := w.deletedOfKind + 1)
      case Conflict => if wait then w'.(inDeletionOfKind := w.inDeletionOfKind + 1) else w'.(ending := Requeues)
      case Fails => w'.(ending := Errs)
  }

  function CleanItems(desired: set<Key>, wait: bool, w: Work, xs: seq<Item>): Work
    decreases |xs|
  {
    if xs == [] || !w.ending.GoesOn? then w
    else CleanItems(desired, wait, CleanItem(desired, wait, w, xs[0]), xs[1..])
  }

  /** The rest of a pass from kind `i` on, when `deleted` objects were deleted before. */
  function CleanFrom(desired: set<Key>, wait: bool, lists: seq<Listing>, i: nat, issued: seq<Key>, deleted: nat): Work
    requires i <= |lists|
    decreases |lists| - i
  {
    if i == |lists| then Work(issued, 0, 0, if wait && deleted > 0 then Requeues else GoesOn)
    else if lists[i].None? then Work(issued, 0, 0, Errs)
    else
      var w := CleanItems(desired, wait, Work(issued, 0, 0, GoesOn), lists[i].value);
      if !w.ending.GoesOn? then w
      else if wait && (w.deletedOfKind > 0 || w.inDeletionOfKind > 0) then w.(ending := Requeues)
      else CleanFrom(desired, wait, lists, i + 1, w.issued, deleted + w.deletedOfKind)
  }

  function Clean(desired: set<Key>, wait: bool, lists: seq<Listing>): Work {
    CleanFrom(desired, wait, lists, 0, [], 0)
  }

  /** cleanOrphanedResources. */
  method CleanOrphanedResources(desired: set<Key>, wait: bool, lists: seq<Listing>)
    returns (requeue: bool, ok: bool, issued: seq<Key>)
    ensures issued == Clean(desired, wait, lists).issued
    ensures ok <==> !Clean(desired, wait, lists).ending.Errs?
    ensures requeue <==> Clean(desired, wait, lists).ending.Requeues?
  {
    issued := [];
    var orphansDeleted: nat := 0;
    for i := 0 to |lists|
      invariant Clean(desired, wait, lists) == CleanFrom(desired, wait, lists, i, issued, orphansDeleted)
    {
      if lists[i].None? {
        return false, false, issued;
      }
      var items := lists[i].value;
      var deletedOfKind, inDeletionOfKind: nat := 0, 0;
      ghost var start := Work(issued, 0, 0, GoesOn);
      for j := 0 to |items|
        invariant CleanItems(desired, wait, start, items)
               == CleanItems(desired, wait, Work(issued, deletedOfKind, inDeletionOfKind, GoesOn), items[j..])
      {
        var x := items[j];
        assert items[j..][0] == x && items[j..][1..] == items[j + 1..];
        if x.key in desired || x.verdict.Skip? {
          continue;
        }
        if x.verdict.HandlerFails? {
          return false, false, issued;
        }
        if x.deleting {
          if wait {
            inDeletionOfKind := inDeletionOfKind + 1;
          }
          continue;
        }
        issued := issued + [x.key];
        if x.reply.Fails? {
          return false, false, issued;
        }
        if x.reply.Conflict? {
          if wait {
            inDeletionOfKind := inDeletionOfKind + 1;
            continue;
          }
          return true, true, issued;
        }
        deletedOfKind := deletedOfKind + 1;
      }
      orphansDeleted := orphansDeleted + deletedOfKind;
      if wait && (deletedOfKind > 0 || inDeletionOfKind > 0) {
        return true, true, issued;
      }
    }
    return wait && orphansDeleted > 0, true, issued;
  }

  // ---------------------------------------------------------------- properties

  lemma {:induction false} ItemsIssue(desired: set<Key>, wait: bool, w: Work, xs: seq<Item>)
    ensures var v := CleanItems(desired, wait, w, xs);
      && w.issued <= v.issued
      && (forall k :: k in v.issued[|w.issued|..] ==>
            k !in desired && exists x :: x in xs && x.key == k && Orphan(desired, x))
      && v.deletedOfKind >= w.deletedOfKind && v.inDeletionOfKind >= w.inDeletionOfKind
      && (wait && v.ending.GoesOn? && v.issued != w.issued ==>
             v.deletedOfKind + v.inDeletionOfKind > w.deletedOfKind + w.inDeletionOfKind)
    decreases |xs|
  {
    if xs != [] && w.ending.GoesOn? {
      var u := CleanItem(desired, wait, w, xs[0]);
      ItemsIssue(desired, wait, u, xs[1..]);
      var v := CleanItems(desired, wait, w, xs);
      forall k | k in v.issued[|w.issued|..]
        ensures k !in desired && exists x :: x in xs && x.key == k && Orphan(desired, x)
      {
        if k in v.issued[|u.issued|..] {
          var x :| x in xs[1..] && x.key == k && Orphan(desired, x);
          assert x in xs;
        } else {
          assert k == xs[0].key && xs[0] in xs;
        }
      }
    }
  }

  /** With waiting, a kind is passed without a requeue exactly when it has no orphan left. */
  lemma {:induction false} ItemsQuietIffClean(desired: set<Key>, w: Work, xs: seq<Item>)
    requires w.ending.GoesOn?
    ensures var v := CleanItems(desired, true, w, xs);
      (v.ending.GoesOn? && v.deletedOfKind == w.deletedOfKind && v.inDeletionOfKind == w.inDeletionOfKind) <==>
          (forall x :: x in xs ==> !Orphan(desired, x))
    decreases |xs|
  {
    if xs != [] {
      var u := CleanItem(desired, true, w, xs[0]);
      assert forall x :: x in xs <==> x == xs[0] || x in xs[1..];
      ItemsIssue(desired, true, u, xs[1..]);
      assert CleanItems(desired, true, w, xs) == CleanItems(desired, true, u, xs[1..]);
      if u.ending.GoesOn? {
        ItemsQuietIffClean(desired, u, xs[1..]);
        assert Orphan(desired, xs[0]) <==> u.deletedOfKind + u.inDeletionOfKind > w.deletedOfKind + w.inDeletionOfKind;
        assert !Orphan(desired, xs[0]) ==> u == w;
      } else {
        assert Orphan(desired, xs[0]) && xs[0] in xs;
      }
    }
  }

  /** Listings hold objects of their own kind. */
  predicate ListsOf(kinds: seq<Kind>, lists: seq<Listing>) {
    && |kinds| == |lists|
    && (forall i, j :: 0 <= i < j < |kinds| ==> kinds[i] != kinds[j])
    && forall i, x :: 0 <= i < |lists| && lists[i].Some? && x in lists[i].value ==> x.key.kind == kinds[i]
  }

  /** The key was listed from position `i` on as an orphan, and with waiting only after clean lists. */
  predicate IssuedFrom(desired: set<Key>, wait: bool, lists: seq<Listing>, i: nat, k: Key) {
    && k !in desired
    && exists j, x :: i <= j < |lists| && lists[j].Some? && x in lists[j].value && x.key == k && Orphan(desired, x)
         && (wait ==> forall h :: i <= h < j ==> CleanList(desired, lists[h]))
  }

  lemma {:induction false} IssuedEarlier(desired: set<Key>, wait: bool, lists: seq<Listing>, i: nat, k: Key)
    requires i < |lists| && IssuedFrom(desired, wait, lists, i + 1, k) && (wait ==> CleanList(desired, lists[i]))
    ensures IssuedFrom(desired, wait, lists, i, k)
  {
  }

  lemma {:induction false} CleanFromIssues(desired: set<Key>, wait: bool, kinds: seq<Kind>, lists: seq<Listing>,
                                           i: nat, issued: seq<Key>, deleted: nat)
    requires ListsOf(kinds, lists) && i <= |lists|
    ensures var v := CleanFrom(desired, wait, lists, i, issued, deleted);
      && issued <= v.issued
      && forall k :: k in v.issued[|issued|..] ==> IssuedFrom(desired, wait, lists, i, k)
    decreases |lists| - i
  {
    hide CleanItems;
    if i < |lists| && lists[i].Some? {
      var xs := lists[i].value;
      var w := CleanItems(desired, wait, Work(issued, 0, 0, GoesOn), xs);
      ItemsIssue(desired, wait, Work(issued, 0, 0, GoesOn), xs);
      assert forall k :: k in w.issued[|issued|..] ==> IssuedFrom(desired, wait, lists, i, k);
      var v := CleanFrom(desired, wait, lists, i, issued, deleted);
      if w.ending.GoesOn? && !(wait && (w.deletedOfKind > 0 || w.inDeletionOfKind > 0)) {
        CleanFromIssues(desired, wait, kinds, lists, i + 1, w.issued, deleted + w.deletedOfKind);
        if wait {
          ItemsQuietIffClean(desired, Work(issued, 0, 0, GoesOn), xs);
        }
        hide CleanFrom, IssuedFrom, CleanList, Orphan;
        forall k | k in v.issued[|issued|..] ensures IssuedFrom(desired, wait, lists, i, k) {
          assert v.issued[|issued|..] == w.issued[|issued|..] + v.issued[|w.issued|..];
          if k in v.issued[|w.issued|..] {
            IssuedEarlier(desired, wait, lists, i, k);
          }
        }
      }
    }
  }

  /** In any pass, a delete is issued only for an orphan that was listed and not skipped, never
      for a desired object; and with waiting, only when every kind that comes earlier was listed
      without any orphan: so in one pass all deletes are of one kind. */
  lemma {:induction false} DeletesRespectKindOrder(desired: set<Key>, wait: bool, kinds: seq<Kind>,
                                                   lists: seq<Listing>, k: Key)
    requires ListsOf(kinds, lists) && k in Clean(desired, wait, lists).issued
    ensures k !in desired
    ensures exists j, x :: 0 <= j < |lists| && lists[j].Some? && x in lists[j].value && x.key == k && Orphan(desired, x)
    ensures wait ==> forall i, j :: 0 <= i < j < |kinds| && kinds[j] == k.kind ==> CleanList(desired, lists[i])
    ensures wait ==> forall k' :: k' in Clean(desired, wait, lists).issued ==> k'.kind == k.kind
  {
    CleanFromIssues(desired, wait, kinds, lists, 0, [], 0);
    var issued := Clean(desired, wait, lists).issued;
    assert issued[0..] == issued;
    var j, x :| 0 <= j < |lists| && lists[j].Some? && x in lists[j].value && x.key == k && Orphan(desired, x)
      && (wait ==> forall h :: 0 <= h < j ==> CleanList(desired, lists[h]));
    assert kinds[j] == k.kind;
    forall k' | wait && k' in issued ensures k'.kind == k.kind {
      var j', x' :| 0 <= j' < |lists| && lists[j'].Some? && x' in lists[j'].value && x'.key == k' && Orphan(desired, x')
        && forall h :: 0 <= h < j' ==> CleanList(desired, lists[h]);
      assert kinds[j'] == k'.kind;
      assert !CleanList(desired, lists[j]) && !CleanList(desired, lists[j']);
    }
  }

  // ---------------------------------------------------------------- that orphans are deleted

  /** The item ends the pass: its handler fails, or the delete sent for it is refused; a conflict ends the
      pass only without waiting. */
  predicate Stops(desired: set<Key>, wait: bool, x: Item) {
    && x.key !in desired && !x.verdict.Skip?
    && (x.verdict.HandlerFails? || (!x.deleting && (x.reply.Fails? || (x.reply.Conflict? && !wait))))
  }

  /** A delete is to be sent for the item. */
  predicate Deletable(desired: set<Key>, x: Item) {
    x.key !in desired && x.verdict.MayDelete? && !x.deleting
  }

  /** The loop over one kind goes on to item `n` exactly when none before it stops the pass, and sends a
      delete for every deletable item that it comes to. */
  lemma {:induction false} ItemsDelete(desired: set<Key>, wait: bool, w: Work, xs: seq<Item>, n: nat)
    requires w.ending.GoesOn? && n < |xs| && Deletable(desired, xs[n])
    requires forall m :: 0 <= m < n ==> !Stops(desired, wait, xs[m])
    ensures xs[n].key in CleanItems(desired, wait, w, xs).issued
    decreases n
  {
    var u := CleanItem(desired, wait, w, xs[0]);
    assert CleanItems(desired, wait, w, xs) == CleanItems(desired, wait, u, xs[1..]);
    if n == 0 {
      ItemsIssue(desired, wait, u, xs[1..]);
      assert xs[0].key in u.issued;
      hide CleanItems, CleanItem;
      assert u.issued <= CleanItems(desired, wait, u, xs[1..]).issued;
    } else {
      assert !Stops(desired, wait, xs[0]);
      assert u.ending.GoesOn?;
      hide CleanItems, CleanItem;
      ItemsDelete(desired, wait, u, xs[1..], n - 1);
    }
  }

  lemma {:induction false} ItemsEnd(desired: set<Key>, wait: bool, w: Work, xs: seq<Item>)
    requires w.ending.GoesOn?
    ensures CleanItems(desired, wait, w, xs).ending.GoesOn? <==> forall x :: x in xs ==> !Stops(desired, wait, x)
    ensures wait ==> !CleanItems(desired, wait, w, xs).ending.Requeues?
    decreases |xs|
  {
    if xs != [] {
      var u := CleanItem(desired, wait, w, xs[0]);
      assert CleanItems(desired, wait, w, xs) == CleanItems(desired, wait, u, xs[1..]);
      assert forall x :: x in xs <==> x == xs[0] || x in xs[1..];
      assert u.ending.GoesOn? <==> !Stops(desired, wait, xs[0]);
      if u.ending.GoesOn? {
        ItemsEnd(desired, wait, u, xs[1..]);
      }
    }
  }

  /** Whether the pass gets as far as kind `i`: with waiting, all earlier kinds were listed without an
      orphan; without, they were listed and nothing stopped the pass. */
  predicate GetsTo(desired: set<Key>, wait: bool, lists: seq<Listing>, i: nat) {
    && i < |lists|
    && forall h :: 0 <= h < i ==>
         && lists[h].Some?
         && forall x :: x in lists[h].value ==>
              if wait then x.key in desired || x.verdict.Skip? else !Stops(desired, wait, x)
  }

  lemma {:induction false} GoesOnTo(desired: set<Key>, wait: bool, lists: seq<Listing>, h: nat, i: nat,
                                    issued: seq<Key>, deleted: nat)
    returns (before: seq<Key>, n: nat)
    requires GetsTo(desired, wait, lists, i) && h <= i
    ensures CleanFrom(desired, wait, lists, h, issued, deleted) == CleanFrom(desired, wait, lists, i, before, n)
    ensures wait ==> before == issued
    decreases i - h
  {
    if h == i {
      before, n := issued, deleted;
    } else {
      var xs := lists[h].value;
      var start := Work(issued, 0, 0, GoesOn);
      var w := CleanItems(desired, wait, start, xs);
      ItemsEnd(desired, wait, start, xs);
      if wait {
        ItemsQuietIffClean(desired, start, xs);
        ItemsIssue(desired, wait, start, xs);
      }
      hide CleanItems;
      before, n := GoesOnTo(desired, wait, lists, h + 1, i, w.issued, deleted + w.deletedOfKind);
    }
  }

  lemma {:induction false} CleanFromKeeps(desired: set<Key>, wait: bool, lists: seq<Listing>, i: nat, issued: seq<Key>,
                                          deleted: nat)
    requires i <= |lists|
    ensures issued <= CleanFrom(desired, wait, lists, i, issued, deleted).issued
    decreases |lists| - i
  {
    hide CleanItems;
    if i < |lists| && lists[i].Some? {
      var w := CleanItems(desired, wait, Work(issued, 0, 0, GoesOn), lists[i].value);
      ItemsIssue(desired, wait, Work(issued, 0, 0, GoesOn), lists[i].value);
      CleanFromKeeps(desired, wait, lists, i + 1, w.issued, deleted + w.deletedOfKind);
    }
  }

  /** No orphan is forgotten: a pass that gets to a kind sends a delete for every object of it that is not
      desired, that the handler gives up and that is not being deleted, up to the first that stops it. */
  lemma {:induction false} OrphansAreDeleted(desired: set<Key>, wait: bool, lists: seq<Listing>, i: nat, n: nat)
    requires GetsTo(desired, wait, lists, i) && lists[i].Some? && n < |lists[i].value|
    requires var x := lists[i].value[n]; x.key !in desired && x.verdict.MayDelete? && !x.deleting
    requires forall m :: 0 <= m < n ==> !Stops(desired, wait, lists[i].value[m])
    ensures lists[i].value[n].key in Clean(desired, wait, lists).issued
  {
    var before, deleted := GoesOnTo(desired, wait, lists, 0, i, [], 0);
    var xs := lists[i].value;
    var start := Work(before, 0, 0, GoesOn);
    ItemsDelete(desired, wait, start, xs, n);
    var w := CleanItems(desired, wait, start, xs);
    CleanFromKeeps(desired, wait, lists, i + 1, w.issued, deleted + w.deletedOfKind);
    hide CleanItems;
  }

  /** Item `n` of kind `i` is deletable, has the key, and is come to. */
  predicate Sent(desired: set<Key>, wait: bool, lists: seq<Listing>, i: nat, n: nat, k: Key) {
    && GetsTo(desired, wait, lists, i) && lists[i].Some? && n < |lists[i].value|
    && Deletable(desired, lists[i].value[n]) && lists[i].value[n].key == k
    && forall m :: 0 <= m < n ==> !Stops(desired, wait, lists[i].value[m])
  }

  lemma {:induction false} ItemsSent(desired: set<Key>, wait: bool, w: Work, xs: seq<Item>, k: Key) returns (n: nat)
    requires k in CleanItems(desired, wait, w, xs).issued && k !in w.issued
    ensures n < |xs| && Deletable(desired, xs[n]) && xs[n].key == k
    ensures forall m :: 0 <= m < n ==> !Stops(desired, wait, xs[m])
    decreases |xs|
  {
    var u := CleanItem(desired, wait, w, xs[0]);
    assert CleanItems(desired, wait, w, xs) == CleanItems(desired, wait, u, xs[1..]);
    if k in u.issued {
      n := 0;
    } else {
      assert u.ending.GoesOn? ==> !Stops(desired, wait, xs[0]);
      var n' := ItemsSent(desired, wait, u, xs[1..], k);
      n := n' + 1;
    }
  }

  lemma {:induction false} FromSent(desired: set<Key>, wait: bool, lists: seq<Listing>, h: nat, issued: seq<Key>,
                                    deleted: nat, k: Key)
    returns (i: nat, n: nat)
    requires h <= |lists| && k in CleanFrom(desired, wait, lists, h, issued, deleted).issued && k !in issued
    requires h < |lists| ==> GetsTo(desired, wait, lists, h)
    ensures Sent(desired, wait, lists, i, n, k)
    decreases |lists| - h
  {
    var xs := lists[h].value;
    var start := Work(issued, 0, 0, GoesOn);
    var w := CleanItems(desired, wait, start, xs);
    if k in w.issued {
      i := h;
      n := ItemsSent(desired, wait, start, xs, k);
    } else {
      ItemsEnd(desired, wait, start, xs);
      if wait {
        ItemsQuietIffClean(desired, start, xs);
      }
      hide CleanItems;
      i, n := FromSent(desired, wait, lists, h + 1, w.issued, deleted + w.deletedOfKind, k);
    }
  }

  /** Exactly these deletes are sent: for what is not desired, given up by the handler and not being deleted,
      in a kind the pass gets to, before anything of that kind that stops it. */
  lemma {:induction false} DeletesIff(desired: set<Key>, wait: bool, lists: seq<Listing>, k: Key)
    ensures k in Clean(desired, wait, lists).issued <==> exists i, n :: Sent(desired, wait, lists, i, n, k)
  {
    if i, n :| Sent(desired, wait, lists, i, n, k) {
      OrphansAreDeleted(desired, wait, lists, i, n);
    }
    if k in Clean(desired, wait, lists).issued {
      var i, n := FromSent(desired, wait, lists, 0, [], 0, k);
    }
  }

  /** How a pass with waiting ends when kind `i` is the first that is not clean: with an error if it cannot
      be listed or one of its objects stops the pass, and otherwise by coming back. */
  lemma {:induction false} WaitingEnds(desired: set<Key>, lists: seq<Listing>, i: nat)
    requires GetsTo(desired, true, lists, i) && !CleanList(desired, lists[i])
    ensures Clean(desired, true, lists).ending ==
      if lists[i].None? || exists x :: x in lists[i].value && Stops(desired, true, x) then Errs else Requeues
  {
    var before, deleted := GoesOnTo(desired, true, lists, 0, i, [], 0);
    if lists[i].Some? {
      var start := Work(before, 0, 0, GoesOn);
      ItemsEnd(desired, true, start, lists[i].value);
      ItemsQuietIffClean(desired, start, lists[i].value);
      ItemsIssue(desired, true, start, lists[i].value);
      hide CleanItems;
    }
  }

  /** A pass without waiting comes to its end if and only if every kind is listed and nothing stops it. */
  lemma {:induction false} GoesThroughIff(desired: set<Key>, lists: seq<Listing>, i: nat, issued: seq<Key>,
                                          deleted: nat)
    requires i <= |lists|
    ensures CleanFrom(desired, false, lists, i, issued, deleted).ending.GoesOn? <==>
      forall h :: i <= h < |lists| ==> lists[h].Some? && forall x :: x in lists[h].value ==> !Stops(desired, false, x)
    decreases |lists| - i
  {
    if i < |lists| && lists[i].Some? {
      var start := Work(issued, 0, 0, GoesOn);
      var w := CleanItems(desired, false, start, lists[i].value);
      ItemsEnd(desired, false, start, lists[i].value);
      hide CleanItems;
      GoesThroughIff(desired, lists, i + 1, w.issued, deleted + w.deletedOfKind);
    }
  }

  lemma {:induction false} CleanFromDone(desired: set<Key>, lists: seq<Listing>, i: nat, issued: seq<Key>)
    requires i <= |lists|
    ensures CleanFrom(desired, true, lists, i, issued, 0).ending.GoesOn? <==>
        forall h :: i <= h < |lists| ==> CleanList(desired, lists[h])
    ensures CleanFrom(desired, true, lists, i, issued, 0).ending.GoesOn? ==>
        CleanFrom(desired, true, lists, i, issued, 0).issued == issued
    decreases |lists| - i
  {
    if i < |lists| && lists[i].Some? {
      var w := CleanItems(desired, true, Work(issued, 0, 0, GoesOn), lists[i].value);
      ItemsQuietIffClean(desired, Work(issued, 0, 0, GoesOn), lists[i].value);
      ItemsIssue(desired, true, Work(issued, 0, 0, GoesOn), lists[i].value);
      if w.ending.GoesOn? && w.deletedOfKind == 0 && w.inDeletionOfKind == 0 {
        CleanFromDone(desired, lists, i + 1, w.issued);
      }
    }
  }

  /** With waiting, the cleanup reports that it is finished if and only if every expected kind was
      listed and none of the lists showed an orphan; and then it deleted nothing. */
  lemma {:induction false} FinishedIffNothingLeft(desired: set<Key>, lists: seq<Listing>)
    ensures Clean(desired, true, lists).ending.GoesOn? <==> forall l :: l in lists ==> CleanList(desired, l)
    ensures Clean(desired, true, lists).ending.GoesOn? ==> Clean(desired, true, lists).issued == []
  {
    CleanFromDone(desired, lists, 0, []);
  }

  // ---------------------------------------------------------------- the reconcile pass

  /** What the phases before enforcement ask for. */
  datatype Early = Proceed | ReturnEarly

  /** The root object's finalizer and the cluster, as one pass over the root object changes them. */
  class HybridGatewayReconciler {
    var finalizer: bool
    const client: ClusterClient

    constructor (client: ClusterClient, finalizer: bool)
      ensures this.client == client && this.finalizer == finalizer
    {
      this.client, this.finalizer := client, finalizer;
    }

    /** handleDeletion: everything the root generated is an orphan; the finalizer goes last. */
    method HandleDeletion(lists: seq<Listing>, patchFails: bool) returns (issued: seq<Key>)
      modifies this
      ensures issued == Clean({}, true, lists).issued
      ensures finalizer <==> old(finalizer) && (patchFails || !(forall l :: l in lists ==> CleanList({}, l)))
    {
      FinishedIffNothingLeft({}, lists);
      var requeue, ok, log := CleanOrphanedResources({}, true, lists);
      issued := log;
      if !ok || requeue {
        return;
      }
      if finalizer && !patchFails {
        finalizer := false;
      }
    }

    /** Reconcile, for a root that is not being deleted and was selected for processing.
        `early` says whether the status and translation phases let the pass go on, `resourcesReady`
        is the answer of the readiness check before cleanup, `managed` whether the root still
        refers to a supported Gateway. */
    method Reconcile(root: Root, ds: seq<Object>, arounds: seq<Around>, early: Early, resourcesReady: bool,
                     lists: seq<Listing>, managed: bool, patchFails: bool) returns (issued: seq<Key>)
      requires |ds| == |arounds| && DistinctKeys(ds) && PlainRoot(root)
      modifies this, client
      ensures client.objects ==
        if old(finalizer) && early.Proceed? then ClusterOf(Enforce(root, ds, old(client.objects), arounds))
        else old(client.objects)
      ensures var cleans := old(finalizer) && early.Proceed?
          && Idles(Enforce(root, ds, old(client.objects), arounds)) && resourcesReady;
        && issued == (if cleans then Clean(KeysOf(ds), true, lists).issued else [])
        && (cleans ==> AllSynced(root, ds, client.objects))
        && (finalizer <==>
              if old(finalizer) then
                managed || patchFails || !cleans || !(forall l :: l in lists ==> CleanList(KeysOf(ds), l))
              else !patchFails)
    {
      issued := [];
      if !finalizer {
        finalizer := !patchFails;
        return;
      }
      if early.ReturnEarly? {
        return;
      }
      ghost var before := client.objects;
      var applied, waiting, enforced := client.EnforceState(root, ds, arounds);
      if !enforced || applied || waiting {
        return;
      }
      NoWorkMeansAllInPlace(root, ds, before, arounds);
      if !resourcesReady {
        return;
      }
      FinishedIffNothingLeft(KeysOf(ds), lists);
      var requeue, ok, log := CleanOrphanedResources(KeysOf(ds), true, lists);
      issued := log;
      if !ok || requeue {
        return;
      }
      if !managed && !patchFails {
        finalizer := false;
      }
    }
  }

  /** The pass wrote nothing and waits for nothing. */
  predicate Idles(out: Outcome) {
    out.Running? && out.loop.created + out.loop.updated == 0 && out.loop.skipped == 0
  }

  function KeysOf(ds: seq<Object>): set<Key> {
    set d | d in ds :: d.key
  }

  lemma {:induction false} IdleIteration(root: Root, ds: seq<Object>, l: Loop, o: Object, around: Around)
    requires l.stopAt.None? && Iterate(root, ds, l, o, around).Running?
    requires var out := Iterate(root, ds, l, o, around).loop;
      out.skipped == l.skipped && out.created == l.created && out.updated == l.updated
    ensures var out := Iterate(root, ds, l, o, around).loop; out.stopAt.None? && Synced(root, out.cluster, o)
  {
    hide GateOf, MergedRoutes, RecordOnService, ServiceToRecordOn;
  }

  lemma {:induction false} CountersGrowOnce(root: Root, ds: seq<Object>, l: Loop, o: Object, around: Around)
    ensures var out := Iterate(root, ds, l, o, around);
      out.Running? ==>
        out.loop.created >= l.created && out.loop.updated >= l.updated && out.loop.skipped >= l.skipped
  {
    hide GateOf, MergedRoutes, Synced, RecordOnService, ServiceToRecordOn, Program;
  }

  lemma {:induction false} IdleLoopSyncs(root: Root, ds: seq<Object>, i: nat, l: Loop, arounds: seq<Around>)
    requires PlainRoot(root) && DistinctKeys(ds) && i <= |ds| == |arounds|
    requires SyncedUpTo(root, ds, l.cluster, i) && l.stopAt.None?
    ensures var out := EnforceFrom(root, ds, i, l, arounds);
      && (out.Running? ==>
             out.loop.created >= l.created && out.loop.updated >= l.updated && out.loop.skipped >= l.skipped)
      && (out.Running? && out.loop.created == l.created && out.loop.updated == l.updated
           && out.loop.skipped == l.skipped ==>
            SyncedUpTo(root, ds, out.loop.cluster, |ds|))
    decreases |ds| - i
  {
    hide Iterate, Synced, PlainRoot;
    if i < |ds| {
      var out := Iterate(root, ds, l, ds[i], arounds[i]);
      if out.Running? {
        CountersGrowOnce(root, ds, l, ds[i], arounds[i]);
        CountersGrow(root, ds, i + 1, out.loop, arounds);
        forall j | 0 <= j < i ensures Synced(root, ClusterOf(out), ds[j]) {
          IterateSyncs(root, ds, l, ds[i], arounds[i], ds[j]);
        }
        if out.loop.skipped == l.skipped && out.loop.created == l.created && out.loop.updated == l.updated {
          IdleIteration(root, ds, l, ds[i], arounds[i]);
          IdleLoopSyncs(root, ds, i + 1, out.loop, arounds);
        }
      }
    }
  }

  lemma {:induction false} CountersGrow(root: Root, ds: seq<Object>, i: nat, l: Loop, arounds: seq<Around>)
    requires i <= |ds| == |arounds|
    ensures var out := EnforceFrom(root, ds, i, l, arounds);
      out.Running? ==> out.loop.created >= l.created && out.loop.updated >= l.updated && out.loop.skipped >= l.skipped
    decreases |ds| - i
  {
    if i < |ds| {
      var out := Iterate(root, ds, l, ds[i], arounds[i]);
      if out.Running? {
        CountersGrow(root, ds, i + 1, out.loop, arounds);
      }
    }
  }

  /** Whatever happens around it, a pass that applied nothing and waits for nothing saw every
      desired object in place; orphans are deleted only after such a pass. */
  lemma {:induction false} NoWorkMeansAllInPlace(root: Root, ds: seq<Object>, c: Cluster, arounds: seq<Around>)
    requires PlainRoot(root) && DistinctKeys(ds) && |ds| == |arounds|
    ensures var out := Enforce(root, ds, c, arounds);
      Idles(out) ==> AllSynced(root, ds, out.loop.cluster)
  {
    IdleLoopSyncs(root, ds, 0, Start(c), arounds);
  }
}
