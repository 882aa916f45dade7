/**
 The reconciler itself: the pending-ID store, the API server with its cache and Konnect as
 the reconciler sees them, and the pass that drives the protocol.
 */
module KonnectReconciler {
  import opened Wrappers
  import opened KonnectProtocol
  import opened KonnectSafety

  datatype ObjectKey = ObjectKey(namespace: string, name: string)

  /** The in-memory map from object key to the Konnect ID that may not be persisted yet. */
  class PendingKonnectIDStore {
    var ids: map<ObjectKey, string>

    constructor ()
      ensures ids == map[]
    {
      ids := map[];
    }

    ghost function Entry(key: ObjectKey): Option<string>
      reads this
    {
      if key in ids then Some(ids[key]) else None
    }

    method Store(key: ObjectKey, id: string)
      modifies this
      ensures ids == old(ids)[key := id]
    {
      ids := ids[key := id];
    }

    method Get(key: ObjectKey) returns (id: string, ok: bool)
      ensures ok <==> key in ids
      ensures id == if key in ids then ids[key] else ""
    {
      if key in ids { id, ok := ids[key], true; } else { id, ok := "", false; }
    }

    method Delete(key: ObjectKey)
      modifies this
      ensures ids == old(ids) - {key}
    {
      ids := ids - {key};
    }
  }

  /** The API server's versions of one object, the version the cache serves, and Konnect.
      Which calls fail is not determined; a failed call may have been applied. */
  class Cluster {
    var history: seq<Option<Entity>>
    var view: nat
    var live: set<string>
    var used: set<string>

    /** Any number of things other actors do between two calls of the reconciler. */
    method Interfere(ghost s: State) returns (ghost events: seq<Event>)
      requires s.history == history && s.view == view && s.live == live && s.used == used && view < |history|
      modifies this`history, this`view
      ensures IsRun(s, events) && forall e :: e in events ==> FromEnvironment(e)
      ensures After(s, events) == s.(history := history, view := view)
    {
      events := [];
      assert IsRun(s, events) && After(s, events) == s;
      hide IsRun, After;
      var budget: nat := *;
      while budget > 0
        invariant IsRun(s, events) && (forall e :: e in events ==> FromEnvironment(e))
        invariant After(s, events) == s.(history := history, view := view) && view < |history|
      {
        ghost var t := After(s, events);
        ghost var e := UserDeletes;
        var last := history[|history| - 1];
        if {
          case true =>
            var v: nat := *;
            if view <= v < |history| {
              e, view := CacheAdvances(v), v;
            } else {
              e := CacheAdvances(view);
            }
          case last.Some? && !last.value.deleting =>
            history := PutVersion(history, Settle(last.value.(deleting := true)));
          case last.Some? =>
            var others: bool := *;
            var rest: int := *;
            others := others && (last.value.deleting ==> last.value.others);
            e := UserEdits(others, rest);
            history := PutVersion(history, Settle(last.value.(others := others, rest := rest)));
          case last.None? =>
            var uid: nat := *;
            var others: bool := *;
            if forall i :: 0 <= i < |history| && history[i].Some? ==> history[i].value.uid != uid {
              e := UserCreates(uid, others);
              history := PutVersion(history, Some(Entity(uid, false, others, false, "", 0)));
            } else {
              e := CacheAdvances(view);
            }
        }
        RunAppend(s, events, e);
        events := events + [e];
        budget := budget - 1;
      }
    }

    /** Adds the cleanup finalizer by a merge patch computed from the stale copy. */
    method PatchFinalizer(ent: Entity) returns (w: Write)
      requires |history| > 0 && !ent.finalizer
      modifies this`history
      ensures w.Applied() ==> FinalizerPatchAccepted(old(history[|history| - 1]), ent)
      ensures history ==
        if w.Applied() then
          PutVersion(old(history), Some(old(history[|history| - 1].value).(finalizer := true, others := ent.others)))
        else old(history)
    {
      w := *;
      var last := history[|history| - 1];
      if !FinalizerPatchAccepted(last, ent) {
        w := Failed;
      } else if w.Applied() {
        history := PutVersion(history, Some(last.value.(finalizer := true, others := ent.others)));
      }
    }

    /** Sets the Konnect ID by a merge patch of the status. */
    method PatchKonnectID(id: string) returns (w: Write)
      requires |history| > 0
      modifies this`history
      ensures w.Applied() ==> old(history[|history| - 1]).Some?
      ensures history ==
        if w.Applied() then PutVersion(old(history), Some(old(history[|history| - 1].value).(konnectID := id)))
        else old(history)
    {
      w := *;
      var last := history[|history| - 1];
      if last.None? {
        w := Failed;
      } else if w.Applied() {
        history := PutVersion(history, Some(last.value.(konnectID := id)));
      }
    }

    /** Replaces the object; the server accepts it only if nothing changed since version `rv`. */
    method Update(v: Option<Entity>, rv: nat) returns (w: Write)
      requires |history| > 0
      modifies this`history
      ensures w.Applied() ==> rv == |old(history)| - 1
      ensures history == if w.Applied() then PutVersion(old(history), v) else old(history)
    {
      w := *;
      if rv != |history| - 1 {
        w := Failed;
      } else if w.Applied() {
        history := PutVersion(history, v);
      }
    }

    /** Asks Konnect to create the entity; an empty ID means it was not created. */
    method CreateEntity() returns (id: string)
      modifies this`live, this`used
      ensures id != "" ==> id !in old(used) && live == old(live) + {id} && used == old(used) + {id}
      ensures id == "" ==> live == old(live) && used == old(used)
    {
      id := *;
      if id in used {
        id := "";
      }
      if id != "" {
        live, used := live + {id}, used + {id};
      }
    }

    /** Asks Konnect to delete the entity `id`, or, if no ID is known, whatever a lookup finds. */
    method DeleteEntity(id: string) returns (ok: bool, deleted: bool, probed: string)
      requires "" !in live
      modifies this`live
      ensures ok ==> (probed != "" ==> id == "" && probed in old(live)) && live == old(live) - {id, probed}
      ensures !ok ==> live == if deleted then old(live) - {id} else old(live)
    {
      ok, deleted, probed := *, *, *;
      if id != "" || probed !in live {
        probed := "";
      }
      if ok {
        live := live - {id, probed};
      } else if deleted {
        live := live - {id};
      }
    }
  }

  /** The generic reconciler for one object.  `trace` is everything that happened since `start`,
      `pass` the reconciler's own events of the last pass, which began at `passStart`. */
  class KonnectEntityReconciler {
    const key: ObjectKey
    const pendingKonnectIDs: PendingKonnectIDStore
    const cluster: Cluster
    ghost const start: State
    ghost var phase: Phase
    ghost var trace: seq<Event>
    ghost var passStart: nat

    constructor (key: ObjectKey, cluster: Cluster)
      requires Initial(State(cluster.history, cluster.view, None, cluster.live, cluster.used, Idle))
      ensures Valid() && phase.Idle? && this.key == key && this.cluster == cluster
      ensures fresh(pendingKonnectIDs) && pendingKonnectIDs.ids == map[]
    {
      this.key, this.cluster := key, cluster;
      pendingKonnectIDs := new PendingKonnectIDStore();
      start := State(cluster.history, cluster.view, None, cluster.live, cluster.used, Idle);
      phase, trace, passStart := Idle, [], 0;
    }

    ghost function Abs(): State
      reads this, cluster, pendingKonnectIDs
    {
      State(cluster.history, cluster.view, pendingKonnectIDs.Entry(key), cluster.live, cluster.used, phase)
    }

    /** The world is where some run of the protocol leads. */
    ghost predicate Valid()
      reads this, cluster, pendingKonnectIDs
    {
      && Initial(start) && IsRun(start, trace) && After(start, trace) == Abs()
      && passStart <= |trace|
    }

    ghost function Pass(): seq<Event>
      requires passStart <= |trace|
      reads this
    {
      WorkerEvents(trace[passStart..])
    }

    /** The safety of the protocol, seen from the reconciler's fields. */
    lemma {:induction false} ValidIsSafe()
      requires Valid()
      ensures |cluster.live| <= 1 && "" !in cluster.live && cluster.view < |cluster.history|
    {
      InitialInv(start);
      RunInv(start, trace);
      AtMostOneLiveEntity(start, trace);
    }

    lemma {:induction false} DeletionLeavesNothing()
      requires Valid() && phase.EntityDeleted? && phase.ent.finalizer
      ensures cluster.live == {} && key !in pendingKonnectIDs.ids
    {
      InitialInv(start);
      RunInv(start, trace);
    }

    ghost method Record(s: State, e: Event)
      requires Initial(start) && IsRun(start, trace) && After(start, trace) == s && passStart <= |trace|
      requires Enabled(s, e) && !FromEnvironment(e)
      requires Step(s, e).(phase := phase) == Abs()
      modifies this`trace, this`phase
      ensures Valid() && Abs() == Step(s, e) && passStart <= |trace|
      ensures trace == old(trace) + [e]
      ensures Pass() == old(Pass()) + [e]
    {
      RunAppend(start, trace, e);
      WorkerEventsConcat(trace[passStart..], [e]);
      assert (trace + [e])[passStart..] == trace[passStart..] + [e];
      phase := Step(s, e).phase;
      trace := trace + [e];
    }

    /** What others do while the reconciler waits for a reply. */
    method Others()
      requires Valid()
      modifies cluster`history, cluster`view, this`trace
      ensures Valid() && old(trace) <= trace && Pass() == old(Pass())
      ensures Abs() == old(Abs()).(history := cluster.history, view := cluster.view)
    {
      ValidIsSafe();
      ghost var s := Abs();
      ghost var events := cluster.Interfere(s);
      RunConcat(start, trace, events);
      WorkerEventsConcat(trace[passStart..], events);
      EnvironmentOnly(events);
      assert (trace + events)[passStart..] == trace[passStart..] + events;
      trace := trace + events;
    }

    /** What a step may touch besides the trace: this object's entry of the store, nothing of other objects. */
    twostate predicate OtherKeysKept()
      reads pendingKonnectIDs
    {
      pendingKonnectIDs.ids - {key} == old(pendingKonnectIDs.ids) - {key}
    }

    /** Adds the cleanup finalizer unless the copy already carries it. */
    method WithFinalizer(ent: Entity) returns (w: Write)
      requires Valid() && phase.Started? && phase.ent == ent && !ent.deleting
      modifies cluster`history, this`trace, this`phase
      ensures Valid() && old(trace) <= trace
      ensures Pass() == old(Pass()) + [EnsureFinalizer(w)]
      ensures phase == if w.Succeeded? then FinalizerEnsured(ent, old(phase.rv)) else Idle
    {
      ghost var s := Abs();
      w := Succeeded;
      if !ent.finalizer {
        w := cluster.PatchFinalizer(ent);
      }
      Record(s, EnsureFinalizer(w));
    }

    /** Brings the copy and the store together: restores a lost ID and stops, or drops an entry
        that has served its purpose and continues. */
    method ReconcilePendingKonnectID(ent: Entity) returns (stop: bool)
      requires Valid() && phase.FinalizerEnsured? && phase.ent == ent
      modifies cluster, pendingKonnectIDs, this`trace, this`phase
      ensures Valid() && OtherKeysKept() && old(trace) <= trace
      ensures stop <==> ent.konnectID == "" && old(key in pendingKonnectIDs.ids)
      ensures pendingKonnectIDs.ids == if ent.konnectID == "" then old(pendingKonnectIDs.ids)
          else old(pendingKonnectIDs.ids) - {key}
      ensures if stop then phase.Idle? && |Pass()| == |old(Pass())| + 2 && Pass()[|Pass()| - 1].PersistRecovered?
          && Pass()[..|Pass()| - 1] == old(Pass()) + [Decide]
              else Pass() == old(Pass()) + [Decide] &&
                   phase == if ent.konnectID != "" then Updating(ent, old(phase.rv)) else Creating(ent, old(phase.rv))
    {
      hide IsRun, After, WorkerEvents, FinalizerPatchAccepted, Settle, DeletionID;
      ghost var s := Abs();
      if ent.konnectID == "" {
        var id, ok := pendingKonnectIDs.Get(key);
        Record(s, Decide);
        if ok {
          Others();
          s := Abs();
          var w := cluster.PatchKonnectID(id);
          Record(s, PersistRecovered(w));
          return true;
        }
      } else {
        pendingKonnectIDs.Delete(key);
        Record(s, Decide);
      }
      return false;
    }

    /** Writes the Konnect ID of a new entity to the status. */
    method PersistCreatedID(id: string) returns (w: Write)
      requires Valid() && phase.Created? && phase.id == id
      modifies cluster`history, cluster`view, this`trace, this`phase
      ensures Valid() && phase.Idle? && old(trace) <= trace
      ensures Pass() == old(Pass()) + [PersistCreated(w)]
    {
      Others();
      ghost var s := Abs();
      w := cluster.PatchKonnectID(id);
      Record(s, PersistCreated(w));
    }

    /** Creates the entity, notes its ID before anything can fail, then persists it. */
    method Create(ent: Entity) returns (id: string, w: Write)
      requires Valid() && phase.Creating? && phase.ent == ent
      modifies cluster, pendingKonnectIDs, this`trace, this`phase
      ensures Valid() && phase.Idle? && old(trace) <= trace
      ensures Pass() == old(Pass()) + if id == "" then [CreateFails] else [CreateSucceeds(id), PersistCreated(w)]
      ensures cluster.live == if id == "" then old(cluster.live) else old(cluster.live) + {id}
      ensures pendingKonnectIDs.ids == if id == "" then old(pendingKonnectIDs.ids)
          else old(pendingKonnectIDs.ids)[key := id]
    {
      ghost var s := Abs();
      id := cluster.CreateEntity();
      w := Failed;
      if id == "" {
        Record(s, CreateFails);
      } else {
        pendingKonnectIDs.Store(key, id);
        Record(s, CreateSucceeds(id));
        w := PersistCreatedID(id);
      }
    }

    /** Deletes the Konnect entity, recovering a lost ID from the store, and purges the entry. */
    method DeleteFromKonnect(ent: Entity, rv: nat) returns (e: Event)
      requires Valid() && phase == Started(ent, rv) && ent.deleting
      modifies cluster`live, pendingKonnectIDs, this`trace, this`phase
      ensures Valid() && old(trace) <= trace && Pass() == old(Pass()) + [e]
      ensures e.DeleteSucceeds? || e.DeleteFails?
      ensures phase == if e.DeleteFails? then Idle else EntityDeleted(ent, rv)
      ensures pendingKonnectIDs.ids ==
        if e.DeleteFails? || !ent.finalizer then old(pendingKonnectIDs.ids) else old(pendingKonnectIDs.ids) - {key}
    {
      ghost var s := Abs();
      ValidIsSafe();
      e := DeleteSucceeds("");
      if ent.finalizer {
        var id := ent.konnectID;
        if id == "" {
          var pending, _ := pendingKonnectIDs.Get(key);
          id := pending;
        }
        var ok, deleted, probed := cluster.DeleteEntity(id);
        if ok {
          pendingKonnectIDs.Delete(key);
          e := DeleteSucceeds(probed);
        } else {
          e := DeleteFails(deleted);
        }
      }
      Record(s, e);
    }

    /** The deletion branch: delete the entity, purge the entry, and only then release the object.  From a
        control plane the Gateway controller's finalizer goes too; `foreign` says that others remain. */
    method HandleDeletion(ent: Entity, rv: nat, controlPlane: bool, foreign: bool) returns (e: Event, w: Write)
      requires Valid() && phase == Started(ent, rv) && ent.deleting
      modifies cluster, pendingKonnectIDs, this`trace, this`phase
      ensures Valid() && phase.Idle? && old(trace) <= trace
      ensures e.DeleteSucceeds? || e.DeleteFails?
      ensures Pass() == old(Pass()) + if e.DeleteFails? then [e]
          else [e, RemoveFinalizer(w, ent.others && (!controlPlane || foreign))]
      ensures pendingKonnectIDs.ids ==
        if e.DeleteFails? || !ent.finalizer then old(pendingKonnectIDs.ids) else old(pendingKonnectIDs.ids) - {key}
      ensures e.DeleteSucceeds? && ent.finalizer ==> cluster.live == {}
    {
      hide IsRun, After, WorkerEvents, FinalizerPatchAccepted, DeletionID;
      e := DeleteFromKonnect(ent, rv);
      w := Failed;
      if e.DeleteSucceeds? {
        if ent.finalizer {
          DeletionLeavesNothing();
        }
        Others();
        ghost var s := Abs();
        var others := ent.others;
        if controlPlane {
          others := others && foreign;
        }
        w := cluster.Update(Settle(ent.(finalizer := false, others := others)), rv);
        Record(s, RemoveFinalizer(w, others));
      }
    }

    /** The part of a pass that follows the pending-ID check: create the entity or update it. */
    method CreateOrUpdate(ent: Entity, rv: nat) returns (ghost calls: seq<Event>)
      requires Valid()
      requires phase == if ent.konnectID != "" then Updating(ent, rv) else Creating(ent, rv)
      modifies cluster, pendingKonnectIDs, this`trace, this`phase
      ensures Valid() && OtherKeysKept() && phase.Idle? && old(trace) <= trace
      ensures Pass() == old(Pass()) + calls
      ensures if ent.konnectID != "" then |calls| == 1 && calls[0].UpdateStatus?
              else if |calls| == 1 then calls[0].CreateFails?
              else |calls| == 2 && calls[0].CreateSucceeds? && calls[1].PersistCreated?
    {
      Others();
      if ent.konnectID == "" {
        var id, w := Create(ent);
        calls := if id == "" then [CreateFails] else [CreateSucceeds(id), PersistCreated(w)];
      } else {
        ghost var s := Abs();
        var rest: int := *;
        var w := cluster.Update(Some(ent.(rest := rest)), rv);
        Record(s, UpdateStatus(w, rest));
        calls := [UpdateStatus(w, rest)];
      }
    }

    /** The pass over an object that is not being deleted. */
    method HandleLive(ent: Entity, rv: nat, stops: bool) returns (ghost calls: seq<Event>)
      requires Valid() && phase == Started(ent, rv) && !ent.deleting
      modifies cluster, pendingKonnectIDs, this`trace, this`phase
      ensures Valid() && OtherKeysKept() && phase.Idle? && old(trace) <= trace
      ensures Pass() == old(Pass()) + calls
      ensures CompletePass(ent, old(pendingKonnectIDs.Entry(key)), false, stops, [Begin] + calls)
    {
      hide IsRun, After, WorkerEvents, FinalizerPatchAccepted, Settle, DeletionID;
      var added := WithFinalizer(ent);
      calls := [EnsureFinalizer(added)];
      if !added.Succeeded? {
        return;
      }
      Others();
      if stops {
        Record(Abs(), Stop);
        calls := calls + [Stop];
        return;
      }
      var stop := ReconcilePendingKonnectID(ent);
      if stop {
        calls := calls + [Decide, Pass()[|Pass()| - 1]];
      } else {
        ghost var more := CreateOrUpdate(ent, rv);
        calls := calls + [Decide] + more;
      }
    }

    /** One pass.  `waits`: the deletion grace period is not over; `stops`: the type-specific
        handler asks to stop; `controlPlane` and `foreign` as in HandleDeletion.  Every other outcome is
        up to the calls themselves. */
    method Reconcile(waits: bool, stops: bool, controlPlane: bool, foreign: bool)
      requires Valid() && phase.Idle? && cluster.view < |cluster.history|
      modifies cluster, pendingKonnectIDs, this`trace, this`phase, this`passStart
      ensures Valid() && OtherKeysKept() && phase.Idle? && old(trace) <= trace && passStart == |old(trace)|
      ensures |cluster.live| <= 1
      ensures match old(cluster.history[cluster.view])
              case None => trace == old(trace) && unchanged(cluster) && unchanged(pendingKonnectIDs)
              case Some(ent) => CompletePass(ent, old(pendingKonnectIDs.Entry(key)), waits, stops, Pass())
    {
      ValidIsSafe();
      passStart := |trace|;
      assert trace[passStart..] == [];
      var cached := cluster.history[cluster.view];
      if cached.None? {
        return;
      }
      var ent, rv := cached.value, cluster.view;
      Record(Abs(), Begin);
      assert Pass() == [Begin];
      Others();
      if ent.deleting && waits {
        Record(Abs(), Stop);
      } else if ent.deleting {
        var _, _ := HandleDeletion(ent, rv, controlPlane, foreign);
      } else {
        ghost var calls := HandleLive(ent, rv, stops);
      }
      ValidIsSafe();
    }
  }
}
