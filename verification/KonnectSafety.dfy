/**
 What every run of the create/delete protocol keeps: at most one Konnect entity per
 object, never lost and never left behind.
 */
module KonnectSafety {
  import opened Wrappers
  import opened KonnectProtocol

  /** The oldest version the reconciler can still act on: the copy held by the running
      pass, or the version the cache serves. */
  function Base(s: State): nat {
    match s.phase
    case Idle => s.view
    case Started(_, rv) => rv
    case FinalizerEnsured(_, rv) => rv
    case Recovering(_, rv, _) => rv
    case Creating(_, rv) => rv
    case Created(_, rv, _) => rv
    case Updating(_, rv) => rv
    case EntityDeleted(_, rv) => rv
  }

  /** The oldest observable version had its cleanup finalizer removed right after it. */
  ghost predicate Finished(s: State)
    requires Base(s) < |s.history|
  {
    var b := Base(s);
    && b + 1 < |s.history| && s.history[b].Some? && s.history[b].value.finalizer
    && (s.history[b + 1].None? || !s.history[b + 1].value.finalizer
         || s.history[b + 1].value.uid != s.history[b].value.uid)
  }

  ghost predicate Shape(s: State) {
    && |s.history| > 0 && Base(s) <= s.view < |s.history|
    && "" !in s.used && s.live <= s.used
    && (!s.phase.Idle? ==> s.history[Base(s)] == Some(s.phase.ent))
  }

  ghost predicate HasID(v: Option<Entity>, id: string) { v.Some? && v.value.konnectID == id }

  ghost predicate Identified(v: Option<Entity>) { v.Some? && v.value.konnectID != "" }

  ghost predicate Held(s: State, i: int)
    requires Shape(s)
  {
    && Base(s) <= i < |s.history| && s.history[i].Some? && s.history[i].value.finalizer
    && !(i == Base(s) && Finished(s))
  }

  ghost predicate Kept(o: Entity, v: Option<Entity>) {
    && v.Some? && v.value.finalizer && v.value.uid == o.uid
    && (o.deleting ==> v.value.deleting)
    && (o.konnectID != "" ==> v.value.konnectID == o.konnectID)
  }

  /** A version that carries the finalizer is followed only by versions of the same object
      that carry it too and keep its Konnect ID. */
  ghost predicate FinalizersHold(s: State)
    requires Shape(s)
  {
    && (forall i, j :: Held(s, i) && i <= j < |s.history| ==> Kept(s.history[i].value, s.history[j]))
    && (forall i :: Base(s) <= i < |s.history| && Identified(s.history[i]) && !s.history[i].value.deleting
          ==> s.history[i].value.finalizer)
  }

  /** Once finished, nothing is left: no entity, no entry, and later versions are blank or dying. */
  ghost predicate FinishedIsClean(s: State)
    requires Shape(s)
  {
    Finished(s) ==>
      && s.history[Base(s)].value.deleting && s.pending.None? && s.live == {}
      && forall j :: Base(s) < j < |s.history| && s.history[j].Some? ==>
           var o := s.history[j].value;
           !o.finalizer && (if o.uid == s.history[Base(s)].value.uid then o.deleting else o.konnectID == "")
  }

  /** A live entity is known: its ID is in the store or in every version still observable. */
  ghost predicate Tracked(s: State)
    requires Shape(s)
  {
    forall x :: x in s.live ==>
      || s.pending == Some(x)
      || forall i :: Base(s) <= i < |s.history| ==> HasID(s.history[i], x)
  }

  ghost predicate OneEntity(s: State) {
    forall x, y :: x in s.live && y in s.live ==> x == y
  }

  /** The IDs in the store and in the observable versions agree with each other and with Konnect. */
  ghost predicate IDsAgree(s: State)
    requires Shape(s)
  {
    && (forall x, i :: x in s.live && Base(s) <= i < |s.history| && Identified(s.history[i]) ==> HasID(s.history[i], x))
    && (forall x :: x in s.live && s.pending.Some? ==> s.pending == Some(x))
    && (s.pending.Some? ==> s.pending.value != "")
    && (s.pending.Some? ==>
          forall i :: Base(s) <= i < |s.history| && Identified(s.history[i]) ==> HasID(s.history[i], s.pending.value))
  }

  /** While an entity lives or an entry is pending, the server holds the object with the finalizer. */
  ghost predicate Guarded(s: State)
    requires Shape(s)
  {
    s.live != {} || s.pending.Some? ==> Server(s).Some? && Server(s).value.finalizer
  }

  /** With no entry pending, a version with an ID is preceded only by versions of the same
      object that show the ID or are being deleted. */
  ghost predicate NoSurprise(s: State)
    requires Shape(s)
  {
    forall i, j :: Base(s) <= i <= j < |s.history| && Identified(s.history[j]) && s.pending.None? ==>
      && s.history[i].Some?
      && (HasID(s.history[i], s.history[j].value.konnectID)
          || (s.history[i].value.deleting && s.history[i].value.uid == s.history[j].value.uid))
  }

  /** What each point of a pass may rely on, however stale the copy it started from. */
  ghost predicate PhaseFacts(s: State)
    requires Shape(s)
  {
    match s.phase
    case Idle => true
    case Started(_, _) => true
    case FinalizerEnsured(ent, _) => !ent.deleting && Server(s).Some? && Server(s).value.finalizer
    case Recovering(ent, _, id) => !ent.deleting && s.pending == Some(id)
    case Creating(ent, _) =>
      !ent.deleting && ent.konnectID == "" && s.pending.None? && s.live == {} && Server(s).Some?
          && Server(s).value.finalizer
    case Created(ent, _, id) => !ent.deleting && s.pending == Some(id)
    case Updating(ent, _) => !ent.deleting && ent.konnectID != "" && ent.finalizer && s.pending.None?
    case EntityDeleted(ent, _) => ent.deleting && (ent.finalizer ==> s.pending.None? && s.live == {})
  }

  ghost predicate Inv(s: State) {
    && Shape(s)
    && FinalizersHold(s) && FinishedIsClean(s) && Tracked(s) && OneEntity(s) && IDsAgree(s)
    && Guarded(s) && NoSurprise(s) && PhaseFacts(s)
  }

  lemma {:induction false} InitialInv(s: State)
    requires Initial(s)
    ensures Inv(s)
  {
  }

  /** How a write of the same object may change it: the ID stays, a deletion mark and the
      finalizer are not taken back, and only an object without the finalizer may go away. */
  ghost predicate Evolves(o: Entity, v: Option<Entity>) {
    if v.None? then !o.finalizer
    else
      && v.value.uid == o.uid && v.value.konnectID == o.konnectID
      && (o.deleting ==> v.value.deleting) && (o.finalizer ==> v.value.finalizer)
      && (v.value.finalizer && !o.finalizer ==> !o.deleting)
      && (o.konnectID != "" && !v.value.deleting ==> v.value.finalizer)
  }

  lemma {:induction false} PutKeepsBase(s: State, v: Option<Entity>)
    requires Inv(s) && Server(s).Some? && Evolves(Server(s).value, v)
    ensures Shape(Put(s, v)) && Base(Put(s, v)) == Base(s)
    ensures Finished(s) ==> Finished(Put(s, v))
    ensures FinalizersHold(Put(s, v))
  {
    var t := Put(s, v);
    if t != s {
      var n := |s.history|;
      assert forall i :: 0 <= i < n ==> t.history[i] == s.history[i];
      forall i, j | Held(t, i) && i <= j < |t.history|
        ensures Kept(t.history[i].value, t.history[j])
      {
        if i < n {
          assert Held(s, i);
          assert Kept(s.history[i].value, s.history[n - 1]);
        }
      }
    }
  }

  lemma {:induction false} PutKeepsIDs(s: State, v: Option<Entity>)
    requires Inv(s) && Server(s).Some? && Evolves(Server(s).value, v)
    requires Finished(s) && v.Some? && v.value.finalizer ==> Server(s).value.finalizer
    ensures Shape(Put(s, v)) && FinishedIsClean(Put(s, v)) && Tracked(Put(s, v)) && IDsAgree(Put(s, v))
  {
    PutKeepsBase(s, v);
    var t := Put(s, v);
    if t != s {
      var n := |s.history|;
      assert forall i :: 0 <= i < n ==> t.history[i] == s.history[i];
      assert t.history[n] == v && Base(s) <= n - 1;
    }
  }

  lemma {:induction false} PutKeepsNoSurprise(s: State, v: Option<Entity>)
    requires Inv(s) && Server(s).Some? && Evolves(Server(s).value, v)
    ensures Shape(Put(s, v)) && NoSurprise(Put(s, v))
  {
    PutKeepsBase(s, v);
    hide FinalizersHold, FinishedIsClean, Tracked, IDsAgree;
    var t := Put(s, v);
    if t != s {
      var n := |s.history|;
      assert forall i :: 0 <= i < n ==> t.history[i] == s.history[i];
      forall i, j | Base(t) <= i <= j < |t.history| && Identified(t.history[j]) && t.pending.None?
        ensures t.history[i].Some?
          && (HasID(t.history[i], t.history[j].value.konnectID)
              || (t.history[i].value.deleting && t.history[i].value.uid == t.history[j].value.uid))
      {
        if j == n && i < n {
          assert Identified(s.history[n - 1]);
        }
      }
    }
  }

  lemma {:induction false} PutInv(s: State, v: Option<Entity>)
    requires Inv(s) && Server(s).Some? && Evolves(Server(s).value, v)
    requires Finished(s) && v.Some? && v.value.finalizer ==> Server(s).value.finalizer
    ensures Inv(Put(s, v))
  {
    PutKeepsBase(s, v);
    PutKeepsIDs(s, v);
    PutKeepsNoSurprise(s, v);
    hide FinalizersHold, FinishedIsClean, Tracked, IDsAgree, NoSurprise;
  }

  /** The same versions, observed from the same one on. */
  lemma {:induction false} SameVersions(s: State, t: State)
    requires Shape(s) && Shape(t) && FinalizersHold(s) && t.history == s.history && Base(t) == Base(s)
    ensures FinalizersHold(t) && Finished(t) == Finished(s)
  {
  }

  lemma {:induction false} CacheAdvancesInv(s: State, e: Event)
    requires Inv(s) && e.CacheAdvances? && Enabled(s, e)
    ensures Inv(Step(s, e))
  {
    var t := Step(s, e);
    if !s.phase.Idle? {
      assert Shape(t) && t.history == s.history && Base(t) == Base(s);
      SameVersions(s, t);
      hide FinalizersHold;
    }
  }

  lemma {:induction false} UserCreatesKeepsFinalizers(s: State, e: Event)
    requires Inv(s) && e.UserCreates? && Enabled(s, e)
    ensures var t := Step(s, e); Shape(t) && Base(t) == Base(s) && FinalizersHold(t) && FinishedIsClean(t)
  {
    hide Tracked, IDsAgree, NoSurprise, PhaseFacts;
    var t := Step(s, e);
    assert forall i :: 0 <= i < |s.history| ==> t.history[i] == s.history[i];
    assert Shape(t) && Base(t) == Base(s);
    assert Finished(t) ==> Finished(s) || s.view == |s.history| - 1;
  }

  lemma {:induction false} UserCreatesInv(s: State, e: Event)
    requires Inv(s) && e.UserCreates? && Enabled(s, e)
    ensures Inv(Step(s, e))
  {
    UserCreatesKeepsFinalizers(s, e);
    hide FinishedIsClean;
    var t := Step(s, e);
    assert forall i :: 0 <= i < |s.history| ==> t.history[i] == s.history[i];
    assert Server(s).None? && s.live == {} && s.pending.None?;
    assert NoSurprise(t);
  }

  lemma {:induction false} UserEditsInv(s: State, e: Event)
    requires Inv(s) && e.UserEdits? && Enabled(s, e)
    ensures Inv(Step(s, e))
  {
    PutInv(s, Settle(Server(s).value.(others := e.others, rest := e.rest)));
  }

  lemma {:induction false} UserDeletesInv(s: State, e: Event)
    requires Inv(s) && e.UserDeletes? && Enabled(s, e)
    ensures Inv(Step(s, e))
  {
    PutInv(s, Settle(Server(s).value.(deleting := true)));
  }

  lemma {:induction false} BeginInv(s: State, e: Event)
    requires Inv(s) && e.Begin? && Enabled(s, e)
    ensures Inv(Step(s, e))
  {
  }

  lemma {:induction false} StopInv(s: State, e: Event)
    requires Inv(s) && e.Stop? && Enabled(s, e)
    ensures Inv(Step(s, e))
  {
  }

  /** Leaving the part of the pass before the first write keeps everything. */
  lemma {:induction false} ReturnInv(s: State, p: Phase)
    requires Inv(s) && s.phase.Started? && !s.phase.ent.deleting
    requires p.Idle? || (p == FinalizerEnsured(s.phase.ent, s.phase.rv) && Server(s).Some? && Server(s).value.finalizer)
    ensures Inv(s.(phase := p))
  {
    var t := s.(phase := p);
    assert t.history == s.history;
    assert forall i :: Held(t, i) ==> Held(s, i);
  }

  lemma {:induction false} EnsureFinalizerInv(s: State, e: Event)
    requires Inv(s) && e.EnsureFinalizer? && Enabled(s, e)
    ensures Inv(Step(s, e))
  {
    var ent := s.phase.ent;
    if !ent.finalizer && e.w.Applied() {
      var v := Some(Server(s).value.(finalizer := true, others := ent.others));
      assert !Finished(s) && Evolves(Server(s).value, v);
      hide FinalizersHold, FinishedIsClean, Tracked, IDsAgree, NoSurprise;
      PutInv(s, v);
      var t := Put(s, v);
      assert Step(s, e) == t.(phase := Step(s, e).phase);
      ReturnInv(t, Step(s, e).phase);
    }
  }

  lemma {:induction false} DecideInv(s: State, e: Event)
    requires Inv(s) && e.Decide? && Enabled(s, e)
    ensures Inv(Step(s, e))
  {
    var t := Step(s, e);
    assert Shape(t) && t.history == s.history && Base(t) == Base(s);
    SameVersions(s, t);
    hide FinalizersHold, Enabled;
  }

  /** The base may move forward at any time: what held from an older version on still holds. */
  lemma {:induction false} EndPassInv(s: State)
    requires Inv(s)
    ensures Inv(s.(phase := Idle))
  {
    var t := s.(phase := Idle);
    assert Base(t) > Base(s) ==> !Finished(t);
    assert forall i :: Held(t, i) ==> Held(s, i);
  }

  /** Writing the recorded ID into the server's copy. */
  /** Recording the ID that is pending: what concerns the finalizers stays. */
  lemma {:induction false} PutIDKeepsFinalizers(s: State, id: string)
    requires Inv(s) && Server(s).Some? && s.pending == Some(id)
    requires (s.phase.Recovering? || s.phase.Created?) && s.phase.id == id
    ensures var t := Put(s, Some(Server(s).value.(konnectID := id)));
      && Shape(t) && Base(t) == Base(s) && !Finished(t) && !Finished(s)
      && FinalizersHold(t) && (forall i :: 0 <= i < |s.history| ==> t.history[i] == s.history[i])
  {
    hide Tracked, NoSurprise;
    var n := |s.history|;
    var t := Put(s, Some(Server(s).value.(konnectID := id)));
    assert Base(t) == Base(s) && !Finished(s);
    assert forall i :: 0 <= i < n ==> t.history[i] == s.history[i];
  }

  lemma {:induction false} PutIDInv(s: State, id: string)
    requires Inv(s) && Server(s).Some? && s.pending == Some(id)
    requires (s.phase.Recovering? || s.phase.Created?) && s.phase.id == id
    ensures Inv(Put(s, Some(Server(s).value.(konnectID := id))))
  {
    PutIDKeepsFinalizers(s, id);
    hide FinalizersHold, FinishedIsClean, Finished;
    var t := Put(s, Some(Server(s).value.(konnectID := id)));
    assert IDsAgree(t);
  }

  lemma {:induction false} PersistRecoveredInv(s: State, e: Event)
    requires Inv(s) && e.PersistRecovered? && Enabled(s, e)
    ensures Inv(Step(s, e))
  {
    if e.w.Applied() {
      PutIDInv(s, s.phase.id);
      EndPassInv(Put(s, Some(Server(s).value.(konnectID := s.phase.id))));
    } else {
      EndPassInv(s);
    }
  }

  lemma {:induction false} CreateFailsInv(s: State, e: Event)
    requires Inv(s) && e.CreateFails? && Enabled(s, e)
    ensures Inv(Step(s, e))
  {
  }

  lemma {:induction false} CreateSucceedsInv(s: State, e: Event)
    requires Inv(s) && e.CreateSucceeds? && Enabled(s, e)
    ensures Inv(Step(s, e))
  {
  }

  lemma {:induction false} PersistCreatedInv(s: State, e: Event)
    requires Inv(s) && e.PersistCreated? && Enabled(s, e)
    ensures Inv(Step(s, e))
  {
    if e.w.Applied() {
      PutIDInv(s, s.phase.id);
      EndPassInv(Put(s, Some(Server(s).value.(konnectID := s.phase.id))));
    } else {
      EndPassInv(s);
    }
  }

  lemma {:induction false} UpdateStatusInv(s: State, e: Event)
    requires Inv(s) && e.UpdateStatus? && Enabled(s, e)
    ensures Inv(Step(s, e))
  {
    hide FinalizersHold, FinishedIsClean, Tracked, IDsAgree, NoSurprise;
    if e.w.Applied() {
      var v := Some(s.phase.ent.(rest := e.rest));
      assert Server(s) == Some(s.phase.ent) && Evolves(s.phase.ent, v);
      PutInv(s, v);
      EndPassInv(Put(s, v));
    } else {
      EndPassInv(s);
    }
  }

  lemma {:induction false} DeleteSucceedsInv(s: State, e: Event)
    requires Inv(s) && e.DeleteSucceeds? && Enabled(s, e)
    ensures Inv(Step(s, e))
  {
    var t := Step(s, e);
    assert Shape(t) && t.history == s.history && Base(t) == Base(s);
    SameVersions(s, t);
    hide FinalizersHold, Enabled;
  }

  lemma {:induction false} DeleteFailsInv(s: State, e: Event)
    requires Inv(s) && e.DeleteFails? && Enabled(s, e)
    ensures Inv(Step(s, e))
  {
  }

  lemma {:induction false} ReleaseInv(s: State, others: bool)
    requires Inv(s) && s.phase.EntityDeleted? && s.phase.ent.finalizer && s.phase.rv == |s.history| - 1
    ensures Inv(Put(s, Settle(s.phase.ent.(finalizer := false, others := others))).(phase := Idle))
  {
    var v := Settle(s.phase.ent.(finalizer := false, others := others));
    var n := |s.history|;
    var t := Put(s, v).(phase := Idle);
    assert t.history == s.history + [v];
    assert Base(t) == n - 1 && Finished(t);
    assert forall i :: !Held(t, i);
  }

  lemma {:induction false} RemoveFinalizerInv(s: State, e: Event)
    requires Inv(s) && e.RemoveFinalizer? && Enabled(s, e)
    ensures Inv(Step(s, e))
  {
    if !e.w.Applied() {
      EndPassInv(s);
    } else if s.phase.ent.finalizer {
      ReleaseInv(s, e.others);
    } else {
      var v := Settle(s.phase.ent.(finalizer := false, others := e.others));
      PutInv(s, v);
      EndPassInv(Put(s, v));
    }
  }

  lemma {:induction false} StepInv(s: State, e: Event)
    requires Inv(s) && Enabled(s, e)
    ensures Inv(Step(s, e))
  {
    match e
    case CacheAdvances(_) => CacheAdvancesInv(s, e);
    case UserCreates(_, _) => UserCreatesInv(s, e);
    case UserEdits(_, _) => UserEditsInv(s, e);
    case UserDeletes => UserDeletesInv(s, e);
    case Begin => BeginInv(s, e);
    case Stop => StopInv(s, e);
    case EnsureFinalizer(_) => EnsureFinalizerInv(s, e);
    case Decide => DecideInv(s, e);
    case PersistRecovered(_) => PersistRecoveredInv(s, e);
    case CreateFails => CreateFailsInv(s, e);
    case CreateSucceeds(_) => CreateSucceedsInv(s, e);
    case PersistCreated(_) => PersistCreatedInv(s, e);
    case UpdateStatus(_, _) => UpdateStatusInv(s, e);
    case DeleteSucceeds(_) => DeleteSucceedsInv(s, e);
    case DeleteFails(_) => DeleteFailsInv(s, e);
    case RemoveFinalizer(_, _) => RemoveFinalizerInv(s, e);
  }

  lemma {:induction false} RunInv(s: State, es: seq<Event>)
    requires Inv(s) && IsRun(s, es)
    ensures Inv(After(s, es))
    decreases |es|
  {
    if es != [] {
      StepInv(s, es[0]);
      RunInv(Step(s, es[0]), es[1..]);
    }
  }

  /** In every run at most one Konnect entity lives, and its ID is in the store or in every
      version that the cache or the running pass can still show. */
  lemma {:induction false} AtMostOneLiveEntity(s: State, es: seq<Event>)
    requires Initial(s) && IsRun(s, es)
    ensures var t := After(s, es);
      && |t.live| <= 1
      && forall x :: x in t.live ==>
           t.pending == Some(x) || forall i :: t.view <= i < |t.history| ==> HasID(t.history[i], x)
  {
    InitialInv(s);
    RunInv(s, es);
    var t := After(s, es);
    if x :| x in t.live {
      assert t.live == {x};
    }
  }

  /** The server's copy stops carrying the cleanup finalizer. */
  ghost predicate Releases(s: State, e: Event)
    requires |s.history| > 0 && Enabled(s, e)
  {
    && Server(s).Some? && Server(s).value.finalizer
    && var v := Server(Step(s, e));
    (v.None? || !v.value.finalizer)
  }

  lemma {:induction false} ReleaseStep(s: State, e: Event)
    requires Inv(s) && Enabled(s, e) && Releases(s, e)
    ensures e.RemoveFinalizer? && s.phase.ent.deleting && s.live == {} && s.pending.None?
    ensures Step(s, e).live == {} && Step(s, e).pending.None?
  {
    hide FinalizersHold, FinishedIsClean, Tracked, OneEntity, IDsAgree, NoSurprise;
  }

  /** In every run the finalizer leaves the server only in the deletion branch, when no entity
      of the object lives and its store entry is gone; both also hold right after. */
  lemma {:induction false} FinalizerReleasedOnlyWhenClean(s: State, es: seq<Event>, e: Event)
    requires Initial(s) && IsRun(s, es) && Enabled(After(s, es), e) && Releases(After(s, es), e)
    ensures e.RemoveFinalizer? && After(s, es).phase.ent.deleting
    ensures var t := After(s, es); t.live == {} && t.pending.None?
    ensures var t := Step(After(s, es), e); t.live == {} && t.pending.None?
  {
    InitialInv(s);
    RunInv(s, es);
    hide IsRun, After, Initial, Inv;
    ReleaseStep(After(s, es), e);
  }

  /** Whenever the server has no object, or one without the finalizer, Konnect has no entity and
      the store no entry: nothing is orphaned and a successor inherits no ID. */
  lemma {:induction false} NothingOutlivesTheObject(s: State, es: seq<Event>)
    requires Initial(s) && IsRun(s, es)
    ensures var t := After(s, es);
      Server(t).None? || !Server(t).value.finalizer ==> t.live == {} && t.pending.None?
    ensures var t := After(s, es);
      forall uid, others :: Enabled(t, UserCreates(uid, others)) ==>
        var u := Step(t, UserCreates(uid, others));
        u.live == {} && u.pending.None? && HasID(Server(u), "")
  {
    InitialInv(s);
    RunInv(s, es);
  }

  /** The reconciler asks Konnect to create an entity only when none lives and none is recorded
      anywhere, and only for an object the server still guards with the finalizer. */
  lemma {:induction false} CreateOnlyWhenNothingLives(s: State, es: seq<Event>, id: string)
    requires Initial(s) && IsRun(s, es) && Enabled(After(s, es), CreateSucceeds(id))
    ensures var t := After(s, es);
      && t.live == {} && t.pending.None?
      && Server(t).Some? && Server(t).value.finalizer
      && forall i :: t.view <= i < |t.history| ==> !Identified(t.history[i])
  {
    InitialInv(s);
    RunInv(s, es);
  }
}
