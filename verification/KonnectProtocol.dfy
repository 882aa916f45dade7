/**
 The create/delete protocol between one Kubernetes object, the operator's cached
 view of it, the in-memory store of pending Konnect IDs and the Konnect API.

 The protocol is an event-labelled state machine.  A pass of the reconciler is cut at
 every call that leaves the process (a Kubernetes write or a Konnect request), so that
 any event of the environment may fall between two calls of one pass.
 */
module KonnectProtocol {
  import opened Wrappers

  /** One stored version of the object.  `others` says that some finalizer besides the
      Konnect cleanup finalizer is present; `rest` stands for everything else.  Releasing a control
      plane also drops the finalizer the Gateway controller put on it, so `others` may go then, too. */
  datatype Entity = Entity(uid: nat, finalizer: bool, others: bool, deleting: bool, konnectID: string, rest: int)

  /** How a write ended: whether the server applied it and whether the client was told so.
      A write that timed out may have been applied. */
  datatype Write = Succeeded | FailedButApplied | Failed {
    predicate Applied() { !Failed? }
  }

  /** Where the running pass is; `ent` is its copy of the object, read at history index `rv`. */
  datatype Phase =
    | Idle
    | Started(ent: Entity, rv: nat)
    | FinalizerEnsured(ent: Entity, rv: nat)
    | Recovering(ent: Entity, rv: nat, id: string)
    | Creating(ent: Entity, rv: nat)
    | Created(ent: Entity, rv: nat, id: string)
    | Updating(ent: Entity, rv: nat)
    | EntityDeleted(ent: Entity, rv: nat)

  /** `history` lists the versions of the object under its namespace/name (None: no such
      object), oldest first; its index is the resource version.  The cache serves version
      `view`.  `pending` is the entry of the pending-ID store, `live` the Konnect entities
      that exist for the object and `used` every Konnect ID ever handed out. */
  datatype State = State(history: seq<Option<Entity>>, view: nat, pending: Option<string>,
                         live: set<string>, used: set<string>, phase: Phase)

  datatype Event =
    // the environment
    | CacheAdvances(view: nat)
    | UserCreates(uid: nat, others: bool)
    | UserEdits(others: bool, rest: int)
    | UserDeletes
    // the reconciler
    | Begin
    | Stop
    | EnsureFinalizer(w: Write)
    | Decide
    | PersistRecovered(w: Write)
    | CreateFails
    | CreateSucceeds(id: string)
    | PersistCreated(w: Write)
    | UpdateStatus(w: Write, rest: int)
    | DeleteSucceeds(probed: string)
    | DeleteFails(deleted: bool)
    | RemoveFinalizer(w: Write, others: bool)

  predicate FromEnvironment(e: Event) {
    e.CacheAdvances? || e.UserCreates? || e.UserEdits? || e.UserDeletes?
  }

  /** The version the API server holds now. */
  function Server(s: State): Option<Entity>
    requires |s.history| > 0
  {
    s.history[|s.history| - 1]
  }

  /** A write that changes nothing does not make a new version. */
  function PutVersion(history: seq<Option<Entity>>, v: Option<Entity>): seq<Option<Entity>>
    requires |history| > 0
  {
    if history[|history| - 1] == v then history else history + [v]
  }

  function Put(s: State, v: Option<Entity>): State
    requires |s.history| > 0
  {
    s.(history := PutVersion(s.history, v))
  }

  /** The finalizer patch sends the finalizer list of the stale copy plus the cleanup
      finalizer; the server refuses new finalizers on an object that is being deleted. */
  predicate FinalizerPatchAccepted(server: Option<Entity>, ent: Entity) {
    server.Some? && (server.value.deleting ==> server.value.finalizer && (ent.others ==> server.value.others))
  }

  /** The ID the deletion branch hands to the Konnect API, "" if it knows none. */
  function DeletionID(ent: Entity, pending: Option<string>): string {
    if ent.konnectID != "" then ent.konnectID else pending.GetOr("")
  }

  predicate Enabled(s: State, e: Event)
    requires |s.history| > 0
  {
    match e
    case CacheAdvances(v) => s.view <= v < |s.history|
    case UserCreates(uid, _) =>
      Server(s).None? && forall i :: 0 <= i < |s.history| && s.history[i].Some? ==> s.history[i].value.uid != uid
    case UserEdits(others, _) =>
      Server(s).Some? && (Server(s).value.deleting && others ==> Server(s).value.others)
    case UserDeletes => Server(s).Some? && !Server(s).value.deleting
    case Begin => s.phase.Idle? && s.view < |s.history| && s.history[s.view].Some?
    case Stop => s.phase.Started? || s.phase.FinalizerEnsured?
    case EnsureFinalizer(w) =>
      && s.phase.Started? && !s.phase.ent.deleting
      && (s.phase.ent.finalizer ==> w.Succeeded?)
      && (!s.phase.ent.finalizer && w.Applied() ==> FinalizerPatchAccepted(Server(s), s.phase.ent))
    case Decide => s.phase.FinalizerEnsured?
    case PersistRecovered(w) => s.phase.Recovering? && (w.Applied() ==> Server(s).Some?)
    case CreateFails => s.phase.Creating?
    case CreateSucceeds(id) => s.phase.Creating? && id != "" && id !in s.used
    case PersistCreated(w) => s.phase.Created? && (w.Applied() ==> Server(s).Some?)
    case UpdateStatus(w, _) =>
      s.phase.Updating? && (w.Applied() ==> s.phase.rv == |s.history| - 1)
    case DeleteSucceeds(probed) =>
      && s.phase.Started? && s.phase.ent.deleting
      && (probed != "" ==> probed in s.live && DeletionID(s.phase.ent, s.pending) == "")
    case DeleteFails(_) => s.phase.Started? && s.phase.ent.deleting && s.phase.ent.finalizer
    case RemoveFinalizer(w, others) =>
      s.phase.EntityDeleted? && (others ==> s.phase.ent.others) && (w.Applied() ==> s.phase.rv == |s.history| - 1)
  }

  /** What an object becomes when it is written while being deleted: gone once no finalizer is left. */
  function Settle(o: Entity): Option<Entity> {
    if o.deleting && !o.finalizer && !o.others then None else Some(o)
  }

  function Step(s: State, e: Event): State
    requires |s.history| > 0 && Enabled(s, e)
  {
    match e
    case CacheAdvances(v) => s.(view := v)
    case UserCreates(uid, others) => Put(s, Some(Entity(uid, false, others, false, "", 0)))
    case UserEdits(others, rest) =>
      Put(s, Settle(Server(s).value.(others := others, rest := rest)))
    case UserDeletes => Put(s, Settle(Server(s).value.(deleting := true)))
    case Begin => s.(phase := Started(s.history[s.view].value, s.view))
    case Stop => s.(phase := Idle)
    case EnsureFinalizer(w) =>
      var ent := s.phase.ent;
      if ent.finalizer then s.(phase := FinalizerEnsured(ent, s.phase.rv))
      else
        var t := if w.Applied() then Put(s, Some(Server(s).value.(finalizer := true, others := ent.others))) else s;
        t.(phase := if w.Succeeded? then FinalizerEnsured(ent, s.phase.rv) else Idle)
    case Decide =>
      var ent := s.phase.ent;
      if ent.konnectID != "" then s.(pending := None, phase := Updating(ent, s.phase.rv))
      else if s.pending.Some? then s.(phase := Recovering(ent, s.phase.rv, s.pending.value))
      else s.(phase := Creating(ent, s.phase.rv))
    case PersistRecovered(w) =>
      var t := if w.Applied() then Put(s, Some(Server(s).value.(konnectID := s.phase.id))) else s;
      t.(phase := Idle)
    case CreateFails => s.(phase := Idle)
    case CreateSucceeds(id) =>
      s.(live := s.live + {id}, used := s.used + {id}, pending := Some(id),
         phase := Created(s.phase.ent, s.phase.rv, id))
    case PersistCreated(w) =>
      var t := if w.Applied() then Put(s, Some(Server(s).value.(konnectID := s.phase.id))) else s;
      t.(phase := Idle)
    case UpdateStatus(w, rest) =>
      var t := if w.Applied() then Put(s, Some(s.phase.ent.(rest := rest))) else s;
      t.(phase := Idle)
    case DeleteSucceeds(probed) =>
      var next := EntityDeleted(s.phase.ent, s.phase.rv);
      if !s.phase.ent.finalizer then s.(phase := next)
      else s.(live := s.live - {DeletionID(s.phase.ent, s.pending), probed}, pending := None, phase := next)
    case DeleteFails(deleted) =>
      s.(live := if deleted then s.live - {DeletionID(s.phase.ent, s.pending)} else s.live, phase := Idle)
    case RemoveFinalizer(w, others) =>
      var t := if w.Applied() then Put(s, Settle(s.phase.ent.(finalizer := false, others := others))) else s;
      t.(phase := Idle)
  }

  /** The start: either no object, or one that no operator has touched; nothing in Konnect. */
  predicate Initial(s: State) {
    && |s.history| == 1 && s.view == 0 && s.pending.None? && s.live == {} && "" !in s.used && s.phase.Idle?
    && (s.history[0].Some? ==>
          var o := s.history[0].value; !o.finalizer && !o.deleting && o.konnectID == "")
  }

  /** `es` is a run from `s`: every event is enabled when it happens. */
  predicate IsRun(s: State, es: seq<Event>)
    decreases |es|
  {
    && |s.history| > 0
    && (es != [] ==> Enabled(s, es[0]) && IsRun(Step(s, es[0]), es[1..]))
  }

  function After(s: State, es: seq<Event>): (t: State)
    requires IsRun(s, es)
    ensures |t.history| > 0
    decreases |es|
  {
    if es == [] then s else After(Step(s, es[0]), es[1..])
  }

  lemma {:induction false} RunConcat(s: State, es: seq<Event>, more: seq<Event>)
    requires IsRun(s, es) && IsRun(After(s, es), more)
    ensures IsRun(s, es + more) && After(s, es + more) == After(After(s, es), more)
    decreases |es|
  {
    if es == [] {
      assert es + more == more;
    } else {
      RunConcat(Step(s, es[0]), es[1..], more);
      assert (es + more)[1..] == es[1..] + more;
    }
  }

  lemma {:induction false} RunAppend(s: State, es: seq<Event>, e: Event)
    requires IsRun(s, es) && Enabled(After(s, es), e)
    ensures IsRun(s, es + [e]) && After(s, es + [e]) == Step(After(s, es), e)
  {
    var t := After(s, es);
    assert [e][1..] == [];
    assert IsRun(Step(t, e), []);
    assert IsRun(t, [e]);
    RunConcat(s, es, [e]);
  }

  /** The events of a run that the reconciler caused. */
  function WorkerEvents(es: seq<Event>): seq<Event> {
    if es == [] then []
    else if FromEnvironment(es[0]) then WorkerEvents(es[1..])
    else [es[0]] + WorkerEvents(es[1..])
  }

  lemma {:induction false} WorkerEventsCons(e: Event, es: seq<Event>)
    ensures WorkerEvents([e] + es) == (if FromEnvironment(e) then [] else [e]) + WorkerEvents(es)
  {
    assert ([e] + es)[1..] == es;
    hide FromEnvironment;
  }

  lemma {:induction false} WorkerEventsConcat(es: seq<Event>, more: seq<Event>)
    ensures WorkerEvents(es + more) == WorkerEvents(es) + WorkerEvents(more)
  {
    if es == [] {
      assert es + more == more;
    } else {
      hide WorkerEvents, FromEnvironment;
      var e, rest := es[0], es[1..];
      WorkerEventsConcat(rest, more);
      WorkerEventsCons(e, rest);
      WorkerEventsCons(e, rest + more);
      Regroup([e], rest, more);
      Regroup(if FromEnvironment(e) then [] else [e], WorkerEvents(rest), WorkerEvents(more));
      assert es == [e] + rest;
    }
  }

  lemma {:induction false} EnvironmentOnly(es: seq<Event>)
    requires forall e :: e in es ==> FromEnvironment(e)
    ensures WorkerEvents(es) == []
  {
    if es != [] {
      assert es[0] in es;
      EnvironmentOnly(es[1..]);
    }
  }

  /** The calls one complete pass makes on the copy `ent` it read while the store held `pending`:
      nothing may be skipped, repeated or reordered.  `waits` is the grace period of a deletion,
      `stops` the type-specific handler's request to stop. */
  predicate CompletePass(ent: Entity, pending: Option<string>, waits: bool, stops: bool, pass: seq<Event>) {
    && |pass| >= 2 && pass[0].Begin?
    && if ent.deleting then
         if waits then pass[1..] == [Stop]
         else if pass[1].DeleteFails? then |pass| == 2
         else |pass| == 3 && pass[1].DeleteSucceeds? && pass[2].RemoveFinalizer?
       else
         && pass[1].EnsureFinalizer?
         && if !pass[1].w.Succeeded? then |pass| == 2
            else if stops then pass[2..] == [Stop]
            else
              && |pass| >= 4 && pass[2].Decide?
              && if ent.konnectID != "" then |pass| == 4 && pass[3].UpdateStatus?
                 else if pending.Some? then |pass| == 4 && pass[3].PersistRecovered?
                 else if pass[3].CreateFails? then |pass| == 4
                 else |pass| == 5 && pass[3].CreateSucceeds? && pass[4].PersistCreated?
  }
}
