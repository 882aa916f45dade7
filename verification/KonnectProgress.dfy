/**
 What each write of the reconciler changes on the server, that recorded IDs are those of living entities,
 and that passes around which nothing goes wrong finish the job: an entity created and recorded, or all
 of it gone.
 */
module KonnectProgress {
  import opened Wrappers
  import opened KonnectProtocol
  import opened KonnectSafety

  // ---------------------------------------------------------------- what a write changes

  lemma {:induction false} PutAppends(s: State, v: Option<Entity>)
    requires |s.history| > 0
    ensures Server(Put(s, v)) == v
    ensures Put(s, v).history == if v == Server(s) then s.history else s.history + [v]
  {
  }

  lemma {:induction false} IDIsWrittenOnce(s: State, e: Event)
    requires Inv(s) && Enabled(s, e) && (e.PersistRecovered? || e.PersistCreated?)
    ensures s.pending.Some? && s.pending == Some(s.phase.id)
    ensures e.w.Applied() ==>
          Server(s).Some? && (Server(s).value.konnectID == "" || Server(s).value.konnectID == s.phase.id)
  {
    hide FinalizersHold, FinishedIsClean, Tracked, NoSurprise;
    assert Server(s) == s.history[|s.history| - 1];
  }

  /** What an event of the reconciler may make of the server's copy, field by field.  The finalizer patch adds
      the finalizer and, being computed from the copy, makes the other finalizers what they are there, where
      an object being deleted can only lose them; recording an ID fills in the pending one where there was
      none; the status update touches neither ID nor finalizers; the release takes the finalizer, and the
      object goes exactly when no other is left on it. */
  predicate WritesItsOwn(t: State, e: Event, v: Option<Entity>)
    requires |t.history| > 0 && Enabled(t, e)
  {
    var o := Server(t);
    v != o ==>
      && o.Some?
      && match e
         case EnsureFinalizer(_) =>
           && (o.value.deleting ==> o.value.finalizer && !t.phase.ent.others)
           && v == Some(o.value.(finalizer := true, others := t.phase.ent.others))
         case PersistRecovered(_) =>
           o.value.konnectID == "" && t.pending.Some? && v == Some(o.value.(konnectID := t.pending.value))
         case PersistCreated(_) =>
           o.value.konnectID == "" && t.pending.Some? && v == Some(o.value.(konnectID := t.pending.value))
         case UpdateStatus(_, rest) => !o.value.deleting && v == Some(o.value.(rest := rest))
         case RemoveFinalizer(_, others) =>
           && o.value.deleting && (others ==> o.value.others)
           && v == if others then Some(o.value.(finalizer := false)) else None
         case _ => false
  }

  lemma {:induction false} WriteStep(t: State, e: Event)
    requires Inv(t) && Enabled(t, e) && !FromEnvironment(e)
    ensures WritesItsOwn(t, e, Server(Step(t, e)))
  {
    if e.PersistRecovered? || e.PersistCreated? {
      IDIsWrittenOnce(t, e);
    }
    WriterKnows(t);
    hide Inv;
  }

  lemma {:induction false} WriterKnows(t: State)
    requires Inv(t)
    ensures t.phase.Updating? ==> !t.phase.ent.deleting
    ensures t.phase.EntityDeleted? ==> t.phase.ent.deleting
    ensures !t.phase.Idle? && Base(t) == |t.history| - 1 ==> Server(t) == Some(t.phase.ent)
  {
    hide FinalizersHold, FinishedIsClean, Tracked, NoSurprise, IDsAgree, Guarded;
  }

  /** In every run, each write of the reconciler changes on the server what it is there for and nothing else. */
  lemma {:induction false} WritesOnlyItsOwn(s: State, es: seq<Event>, e: Event)
    requires Initial(s) && IsRun(s, es) && Enabled(After(s, es), e) && !FromEnvironment(e)
    ensures var t := After(s, es);
      var o, v := Server(t), Server(Step(t, e));
      Step(t, e).history == (if v == o then t.history else t.history + [v]) && WritesItsOwn(t, e, v)
  {
    InitialInv(s);
    RunInv(s, es);
    var t := After(s, es);
    WriteStep(t, e);
    hide Inv, IsRun, After, Initial, Enabled;
    StepAppends(t, e);
  }

  lemma {:induction false} StepAppends(t: State, e: Event)
    requires |t.history| > 0 && Enabled(t, e) && !FromEnvironment(e)
    ensures var o, v := Server(t), Server(Step(t, e));
      Step(t, e).history == if v == o then t.history else t.history + [v]
  {
  }

  // ---------------------------------------------------------------- recorded IDs are alive

  /** An object that is not being deleted carries the ID of a living entity or none, and so does the store. */
  ghost predicate Alive(s: State)
    requires |s.history| > 0
  {
    Server(s).Some? && !Server(s).value.deleting ==>
      && (Server(s).value.konnectID != "" ==> Server(s).value.konnectID in s.live)
      && (s.pending.Some? ==> s.pending.value in s.live)
  }

  /** A pass that deletes in Konnect holds a copy of the object the server holds, which is being deleted; or
      nothing was left to delete. */
  lemma {:induction false} DeletersMeanIt(s: State)
    requires Inv(s) && s.phase.Started? && s.phase.ent.deleting && s.phase.ent.finalizer
    ensures Server(s).Some? && !Server(s).value.deleting ==>
      s.live == {} && s.pending.None? && Server(s).value.konnectID == ""
  {
    hide Tracked, NoSurprise, IDsAgree, OneEntity, Guarded;
    var b := Base(s);
    if !Finished(s) {
      assert Held(s, b);
      assert Kept(s.history[b].value, s.history[|s.history| - 1]);
    } else {
      assert s.history[|s.history| - 1] == Server(s);
    }
  }

  lemma {:induction false} AliveWrite(s: State, e: Event)
    requires Inv(s) && Alive(s) && Enabled(s, e) && !FromEnvironment(e) && !e.DeleteSucceeds? && !e.DeleteFails?
    ensures Alive(Step(s, e))
  {
    WriteStep(s, e);
    hide Inv;
  }

  lemma {:induction false} AliveStep(s: State, e: Event)
    requires Inv(s) && Alive(s) && Enabled(s, e)
    ensures Alive(Step(s, e))
  {
    if e.DeleteSucceeds? || e.DeleteFails? {
      if s.phase.ent.finalizer {
        DeletersMeanIt(s);
      }
      hide Inv;
    } else if FromEnvironment(e) {
      if e.UserCreates? {
        NoObjectNoEntry(s);
      }
      hide Inv;
    } else {
      AliveWrite(s, e);
    }
  }

  lemma {:induction false} NoObjectNoEntry(s: State)
    requires Inv(s) && (Server(s).None? || !Server(s).value.finalizer)
    ensures s.live == {} && s.pending.None?
  {
    hide FinalizersHold, FinishedIsClean, Tracked, NoSurprise, IDsAgree;
  }

  lemma {:induction false} RunAlive(s: State, es: seq<Event>)
    requires Inv(s) && Alive(s) && IsRun(s, es)
    ensures Alive(After(s, es))
    decreases |es|
  {
    if es != [] {
      StepInv(s, es[0]);
      AliveStep(s, es[0]);
      hide Inv, Alive, Step, Enabled;
      RunAlive(Step(s, es[0]), es[1..]);
    }
  }

  /** In every run, while the object exists and is not being deleted, the ID on it and the ID in the store,
      where there are any, are that of the one living entity. */
  lemma {:induction false} RecordedIDsAreAlive(s: State, es: seq<Event>)
    requires Initial(s) && IsRun(s, es)
    ensures var t := After(s, es);
      Server(t).Some? && !Server(t).value.deleting ==>
        && (Server(t).value.konnectID != "" ==> t.live == {Server(t).value.konnectID})
        && (t.pending.Some? ==> t.live == {t.pending.value})
  {
    InitialInv(s);
    RunAlive(s, es);
    RunInv(s, es);
    AtMostOne(After(s, es));
    hide Inv, IsRun, After, Initial;
  }

  lemma {:induction false} AtMostOne(t: State)
    requires Inv(t)
    ensures forall x :: x in t.live ==> t.live == {x}
  {
    hide FinalizersHold, FinishedIsClean, Tracked, NoSurprise, IDsAgree;
  }

  // ---------------------------------------------------------------- undisturbed passes

  /** Every request of the pass succeeds. */
  predicate NothingFails(pass: seq<Event>) {
    forall e :: e in pass ==>
      match e
      case EnsureFinalizer(w) => w == Succeeded
      case PersistRecovered(w) => w == Succeeded
      case PersistCreated(w) => w == Succeeded
      case UpdateStatus(w, _) => w == Succeeded
      case RemoveFinalizer(w, _) => w == Succeeded
      case CreateFails => false
      case DeleteFails(_) => false
      case _ => true
  }

  /** A run state in which no pass is under way and the cache serves what the server holds. */
  ghost predicate UpToDate(t: State) {
    Inv(t) && Alive(t) && t.phase.Idle? && t.view == |t.history| - 1 && Server(t).Some?
  }

  /** A complete pass of the reconciler for that object, in which nothing fails and nobody interferes. */
  ghost predicate Undisturbed(t: State, pass: seq<Event>) {
    && IsRun(t, pass) && Server(t).Some?
    && NothingFails(pass) && CompletePass(Server(t).value, t.pending, false, false, pass)
  }

  lemma {:induction false} OneStep(s: State, es: seq<Event>)
    requires IsRun(s, es) && es != []
    ensures Enabled(s, es[0]) && IsRun(Step(s, es[0]), es[1..]) && After(s, es) == After(Step(s, es[0]), es[1..])
  {
  }

  lemma {:induction false} Opened(t: State, o: Entity)
    requires UpToDate(t) && Server(t) == Some(o) && !o.deleting
    requires Enabled(t, Begin) && Enabled(Step(t, Begin), EnsureFinalizer(Succeeded))
    ensures var u := Step(Step(t, Begin), EnsureFinalizer(Succeeded));
      && |u.history| > 0 && Server(u) == Some(o.(finalizer := true)) && u.live == t.live && u.pending == t.pending
      && u.phase == FinalizerEnsured(o, t.view)
  {
    hide Inv, Alive;
    PutAppends(t, Some(o.(finalizer := true)));
  }

  lemma {:induction false} Decided(u: State)
    requires |u.history| > 0 && Enabled(u, Decide)
    ensures var v, o, rv := Step(u, Decide), u.phase.ent, u.phase.rv;
      && v.history == u.history && v.live == u.live
      && v.pending == (if o.konnectID != "" then None else u.pending)
      && v.phase == (if o.konnectID != "" then Updating(o, rv)
                     else if u.pending.Some? then Recovering(o, rv, u.pending.value) else Creating(o, rv))
  {
  }

  lemma {:induction false} FirstThree(o: Entity, pending: Option<string>, pass: seq<Event>)
    requires CompletePass(o, pending, false, false, pass) && NothingFails(pass) && !o.deleting
    ensures |pass| >= 4 && pass[0] == Begin && pass[1] == EnsureFinalizer(Succeeded) && pass[2] == Decide
  {
    assert pass[1] in pass;
  }

  /** A pass over an object that is not being deleted begins with the finalizer and the look into the store. */
  lemma {:induction false} Opening(t: State, pass: seq<Event>) returns (u: State)
    requires UpToDate(t) && Undisturbed(t, pass) && !Server(t).value.deleting
    ensures var o := Server(t).value;
      && |pass| >= 4 && IsRun(u, pass[3..]) && After(t, pass) == After(u, pass[3..])
      && |u.history| > 0 && Server(u) == Some(o.(finalizer := true)) && u.live == t.live
      && u.pending == (if o.konnectID != "" then None else t.pending)
      && u.phase == (if o.konnectID != "" then Updating(o, t.view)
                     else if t.pending.Some? then Recovering(o, t.view, t.pending.value) else Creating(o, t.view))
  {
    hide Inv, Alive, IsRun, After, NothingFails, CompletePass, Step, Enabled;
    FirstThree(Server(t).value, t.pending, pass);
    OneStep(t, pass);
    var t1 := Step(t, Begin);
    OneStep(t1, pass[1..]);
    var t2 := Step(t1, EnsureFinalizer(Succeeded));
    assert pass[1..][1..] == pass[2..] && pass[2..][1..] == pass[3..];
    OneStep(t2, pass[2..]);
    Opened(t, Server(t).value);
    Decided(t2);
    u := Step(t2, Decide);
  }

  lemma {:induction false} LastCalls(o: Entity, pending: Option<string>, pass: seq<Event>)
    requires CompletePass(o, pending, false, false, pass) && NothingFails(pass) && !o.deleting
    ensures |pass| >= 4
    ensures if o.konnectID != "" then |pass| == 4 && pass[3].UpdateStatus? && pass[3].w == Succeeded
            else if pending.Some? then |pass| == 4 && pass[3] == PersistRecovered(Succeeded)
            else |pass| == 5 && pass[3].CreateSucceeds? && pass[4] == PersistCreated(Succeeded)
  {
    assert pass[1] in pass && pass[3] in pass && (|pass| == 5 ==> pass[4] in pass);
  }

  lemma {:induction false} CreatingPass(u: State, id: string)
    requires |u.history| > 0 && IsRun(u, [CreateSucceeds(id), PersistCreated(Succeeded)])
    ensures var v := After(u, [CreateSucceeds(id), PersistCreated(Succeeded)]);
      && id != "" && Server(u).Some? && v.phase.Idle?
      && Server(v) == Some(Server(u).value.(konnectID := id)) && v.pending == Some(id) && v.live == u.live + {id}
  {
    hide IsRun, After, Step, Enabled;
    var es := [CreateSucceeds(id), PersistCreated(Succeeded)];
    assert es[1..] == [PersistCreated(Succeeded)] && es[1..][1..] == [];
    OneStep(u, es);
    CreateLeaves(u, id);
    var v := Step(u, es[0]);
    OneStep(v, es[1..]);
    RecordLeaves(v, PersistCreated(Succeeded));
    Ended(Step(v, es[1]));
  }

  lemma {:induction false} RecordingPass(u: State, e: Event)
    requires |u.history| > 0 && IsRun(u, [e])
    requires (e.UpdateStatus? && e.w == Succeeded && u.phase.Updating?) || e == PersistRecovered(Succeeded)
    ensures var v := After(u, [e]);
      && v.phase.Idle? && v.pending == u.pending && v.live == u.live
      && (e.UpdateStatus? ==> Server(v) == Some(u.phase.ent.(rest := e.rest)))
      && (e.PersistRecovered? ==>
            Server(u).Some? && u.phase.Recovering? && Server(v) == Some(Server(u).value.(konnectID := u.phase.id)))
  {
    hide IsRun, After, Step, Enabled;
    assert [e][1..] == [];
    OneStep(u, [e]);
    if e.UpdateStatus? {
      UpdateLeaves(u, e);
    } else {
      RecordLeaves(u, e);
    }
    Ended(Step(u, e));
  }

  /** What such a pass leaves. */
  lemma {:induction false} LivePass(t: State, pass: seq<Event>)
    requires UpToDate(t) && Undisturbed(t, pass) && !Server(t).value.deleting
    ensures var o, v := Server(t).value, After(t, pass);
      && v.phase.Idle? && |pass| >= 4
      && if o.konnectID != "" then
           pass[3].UpdateStatus? && Server(v) == Some(o.(finalizer := true, rest := pass[3].rest))
           && v.pending.None? && v.live == t.live
         else if t.pending.Some? then
           Server(v) == Some(o.(finalizer := true, konnectID := t.pending.value))
           && v.pending == t.pending && v.live == t.live
         else
           pass[3].CreateSucceeds? && pass[3].id != ""
           && Server(v) == Some(o.(finalizer := true, konnectID := pass[3].id))
           && v.pending == Some(pass[3].id) && v.live == t.live + {pass[3].id}
  {
    var u := Opening(t, pass);
    var o := Server(t).value;
    LastCalls(o, t.pending, pass);
    IdentifiedIsGuarded(t);
    hide Inv, Alive, IsRun, NothingFails, CompletePass, After, Step, Enabled;
    if |pass| == 5 {
      assert pass[3..] == [CreateSucceeds(pass[3].id), PersistCreated(Succeeded)];
      CreatingPass(u, pass[3].id);
    } else {
      assert pass[3..] == [pass[3]];
      RecordingPass(u, pass[3]);
    }
  }

  lemma {:induction false} Ended(v: State)
    requires IsRun(v, [])
    ensures After(v, []) == v
  {
  }

  lemma {:induction false} IdentifiedIsGuarded(t: State)
    requires UpToDate(t)
    ensures !Server(t).value.deleting && Server(t).value.konnectID != "" ==> Server(t).value.finalizer
  {
    hide Tracked, FinishedIsClean, OneEntity, IDsAgree, Guarded, NoSurprise, Alive;
    assert Server(t) == t.history[|t.history| - 1];
  }

  lemma {:induction false} UpdateLeaves(u: State, e: Event)
    requires |u.history| > 0 && u.phase.Updating? && e.UpdateStatus? && e.w == Succeeded && Enabled(u, e)
    ensures var v := Step(u, e);
      |v.history| > 0 && Server(v) == Some(u.phase.ent.(rest := e.rest)) && v.pending == u.pending
      && v.live == u.live && v.phase.Idle?
  {
    PutAppends(u, Some(u.phase.ent.(rest := e.rest)));
  }

  lemma {:induction false} RecordLeaves(u: State, e: Event)
    requires |u.history| > 0 && (e == PersistRecovered(Succeeded) || e == PersistCreated(Succeeded)) && Enabled(u, e)
    ensures Server(u).Some? && (u.phase.Recovering? || u.phase.Created?)
    ensures var v := Step(u, e);
      |v.history| > 0 && Server(v) == Some(Server(u).value.(konnectID := u.phase.id)) && v.pending == u.pending
      && v.live == u.live && v.phase.Idle?
  {
    PutAppends(u, Some(Server(u).value.(konnectID := u.phase.id)));
  }

  lemma {:induction false} CreateLeaves(u: State, id: string)
    requires |u.history| > 0 && Enabled(u, CreateSucceeds(id))
    ensures var v := Step(u, CreateSucceeds(id));
      && id != "" && v.history == u.history && v.pending == Some(id) && v.live == u.live + {id}
      && v.phase.Created? && v.phase.id == id
  {
  }

  lemma {:induction false} DeletionCalls(o: Entity, pending: Option<string>, pass: seq<Event>)
    requires CompletePass(o, pending, false, false, pass) && NothingFails(pass) && o.deleting
    ensures |pass| == 3 && pass[0] == Begin && pass[1].DeleteSucceeds? && pass[2].RemoveFinalizer?
        && pass[2].w == Succeeded
  {
    assert pass[1] in pass && pass[2] in pass;
  }

  lemma {:induction false} ReleaseLeaves(t: State, d: Event, r: Event)
    requires UpToDate(t) && Server(t).value.deleting && d.DeleteSucceeds? && r.RemoveFinalizer? && r.w == Succeeded
    requires Enabled(t, Begin) && Enabled(Step(t, Begin), d) && Enabled(Step(Step(t, Begin), d), r)
    ensures var v := Step(Step(Step(t, Begin), d), r);
      && |v.history| > 0 && v.phase.Idle?
      && Server(v) == if r.others then Some(Server(t).value.(finalizer := false)) else None
  {
    hide Inv, Alive, DeletionID;
    PutAppends(t, Settle(Server(t).value.(finalizer := false, others := r.others)));
  }

  /** What a pass leaves of an object that is being deleted. */
  lemma {:induction false} DeletingPass(t: State, pass: seq<Event>)
    requires UpToDate(t) && Undisturbed(t, pass) && Server(t).value.deleting
    ensures var o, v := Server(t).value, After(t, pass);
      && v.phase.Idle? && |pass| == 3 && pass[2].RemoveFinalizer? && v.live == {} && v.pending.None?
      && Server(v) == if pass[2].others then Some(o.(finalizer := false)) else None
  {
    RunInv(t, pass);
    hide Inv, Alive, IsRun, NothingFails, After, Step, Enabled, CompletePass;
    DeletionCalls(Server(t).value, t.pending, pass);
    OneStep(t, pass);
    var t1 := Step(t, pass[0]);
    OneStep(t1, pass[1..]);
    var t2 := Step(t1, pass[1]);
    assert pass[1..][1..] == pass[2..] && pass[2..][1..] == [];
    OneStep(t2, pass[2..]);
    var v := Step(t2, pass[2]);
    ReleaseLeaves(t, pass[1], pass[2]);
    Ended(v);
    NoObjectNoEntry(v);
  }

  /** The cache catches up. */
  function Caught(u: State): State
    requires |u.history| > 0
  {
    u.(view := |u.history| - 1)
  }

  lemma {:induction false} CaughtUp(u: State)
    requires Inv(u) && Alive(u) && u.phase.Idle? && Server(u).Some?
    ensures UpToDate(Caught(u))
  {
    InView(u);
    var e := CacheAdvances(|u.history| - 1);
    StepInv(u, e);
    AliveStep(u, e);
    hide Inv, Alive;
  }

  lemma {:induction false} InView(u: State)
    requires Inv(u)
    ensures u.view < |u.history|
  {
    hide FinalizersHold, FinishedIsClean, Tracked, NoSurprise, IDsAgree, PhaseFacts, OneEntity, Guarded;
  }

  lemma {:induction false} ReachedUpToDate(s: State, es: seq<Event>)
    requires Initial(s) && IsRun(s, es)
    ensures var t := After(s, es);
      Inv(t) && Alive(t) && (t.phase.Idle? && Server(t).Some? ==> UpToDate(Caught(t)))
  {
    InitialInv(s);
    RunInv(s, es);
    RunAlive(s, es);
    hide Inv, Alive, IsRun, After, Initial;
    if After(s, es).phase.Idle? && Server(After(s, es)).Some? {
      CaughtUp(After(s, es));
    }
  }

  /** Two undisturbed passes, the cache catching up before each, over an object that is not being deleted: it
      ends with the finalizer and the ID of the one living entity, and the store has no entry any more.
      Apart from these and its status the object is as it was. */
  lemma {:induction false} TwoPassesProvision(s: State, es: seq<Event>, first: seq<Event>, second: seq<Event>)
    requires Initial(s) && IsRun(s, es) && After(s, es).phase.Idle?
    requires Server(After(s, es)).Some? && !Server(After(s, es)).value.deleting
    requires Undisturbed(Caught(After(s, es)), first)
    requires Undisturbed(Caught(After(Caught(After(s, es)), first)), second)
    ensures var t := After(s, es);
      var v := After(Caught(After(Caught(t), first)), second);
      && Server(v).Some? && v.phase.Idle? && v.pending.None?
      && Server(v).value.konnectID != "" && v.live == {Server(v).value.konnectID}
      && Server(v).value == Server(t).value.(finalizer := true, konnectID := Server(v).value.konnectID,
                                             rest := Server(v).value.rest)
  {
    hide Inv, Alive, IsRun, After, Initial, NothingFails, CompletePass;
    ReachedUpToDate(s, es);
    var t := Caught(After(s, es));
    LivePass(t, first);
    PendingIsNamed(t);
    var u := After(t, first);
    RunInv(t, first);
    RunAlive(t, first);
    CaughtUp(u);
    LivePass(Caught(u), second);
    var v := After(Caught(u), second);
    RunInv(Caught(u), second);
    RunAlive(Caught(u), second);
    AliveOne(v);
  }

  lemma {:induction false} PendingIsNamed(t: State)
    requires Inv(t)
    ensures t.pending.Some? ==> t.pending.value != ""
  {
    hide FinalizersHold, FinishedIsClean, Tracked, NoSurprise, PhaseFacts, OneEntity, Guarded;
  }

  lemma {:induction false} AliveOne(v: State)
    requires Inv(v) && Alive(v) && Server(v).Some? && !Server(v).value.deleting && Server(v).value.konnectID != ""
    ensures v.live == {Server(v).value.konnectID}
  {
    AtMostOne(v);
    hide Inv;
  }

  /** One undisturbed pass over an object that is being deleted leaves nothing in Konnect and nothing in the
      store, takes the finalizer, and the object with it unless it keeps another one. */
  lemma {:induction false} OnePassReleases(s: State, es: seq<Event>, pass: seq<Event>)
    requires Initial(s) && IsRun(s, es) && After(s, es).phase.Idle?
    requires Server(After(s, es)).Some? && Server(After(s, es)).value.deleting
    requires Undisturbed(Caught(After(s, es)), pass)
    ensures var t := After(s, es);
      var v := After(Caught(t), pass);
      && v.phase.Idle? && v.live == {} && v.pending.None? && pass != [] && pass[|pass| - 1].RemoveFinalizer?
      && Server(v) == if pass[|pass| - 1].others then Some(Server(t).value.(finalizer := false)) else None
  {
    hide Inv, Alive, IsRun, After, Initial, NothingFails, CompletePass;
    ReachedUpToDate(s, es);
    DeletingPass(Caught(After(s, es)), pass);
  }

  lemma {:induction false} Prepends(s: State, e: Event, es: seq<Event>)
    requires |s.history| > 0 && Enabled(s, e) && IsRun(Step(s, e), es)
    ensures IsRun(s, [e] + es)
  {
    assert ([e] + es)[1..] == es;
  }

  lemma {:induction false} OpeningEnabled(t: State)
    requires UpToDate(t) && !Server(t).value.deleting
    ensures Enabled(t, Begin) && Enabled(Step(t, Begin), EnsureFinalizer(Succeeded))
    ensures Enabled(Step(Step(t, Begin), EnsureFinalizer(Succeeded)), Decide)
    ensures var v := Step(Step(Step(t, Begin), EnsureFinalizer(Succeeded)), Decide);
      && |v.history| > 0 && Server(v).Some? && v.used == t.used
      && (v.phase.Updating? ==> v.phase.rv == |v.history| - 1)
  {
    IdentifiedIsGuarded(t);
    hide Inv, Alive;
  }

  lemma {:induction false} ClosingRuns(v: State, e: Event)
    requires |v.history| > 0 && Server(v).Some?
    requires (e.UpdateStatus? && e.w == Succeeded && v.phase.Updating? && v.phase.rv == |v.history| - 1)
             || (e == PersistRecovered(Succeeded) && v.phase.Recovering?)
    ensures IsRun(v, [e])
  {
    assert [e][1..] == [];
    assert Enabled(v, e);
    assert |Step(v, e).history| > 0;
  }

  lemma {:induction false} CreatingRuns(v: State, id: string)
    requires |v.history| > 0 && Server(v).Some? && v.phase.Creating? && id != "" && id !in v.used
    ensures IsRun(v, [CreateSucceeds(id), PersistCreated(Succeeded)])
  {
    var e, f := CreateSucceeds(id), PersistCreated(Succeeded);
    var w := Step(v, e);
    assert [f][1..] == [];
    assert Enabled(w, f) && |Step(w, f).history| > 0;
    assert IsRun(w, [f]);
    Prepends(v, e, [f]);
    assert [e] + [f] == [e, f];
  }

  function LastOf(o: Entity, pending: Option<string>, id: string, rest: int): seq<Event> {
    if o.konnectID != "" then [UpdateStatus(Succeeded, rest)]
    else if pending.Some? then [PersistRecovered(Succeeded)]
    else [CreateSucceeds(id), PersistCreated(Succeeded)]
  }

  lemma {:induction false} LiveRun(t: State, id: string, rest: int)
    requires UpToDate(t) && id != "" && id !in t.used && !Server(t).value.deleting
    ensures IsRun(t, [Begin] + ([EnsureFinalizer(Succeeded)] + ([Decide] + LastOf(Server(t).value, t.pending, id,
        rest))))
  {
    var o := Server(t).value;
    hide Inv, Alive, IsRun, Step, Enabled;
    OpeningEnabled(t);
    var t1 := Step(t, Begin);
    Opened(t, o);
    var t2 := Step(t1, EnsureFinalizer(Succeeded));
    Decided(t2);
    var v := Step(t2, Decide);
    var last := LastOf(o, t.pending, id, rest);
    if o.konnectID != "" || t.pending.Some? {
      ClosingRuns(v, last[0]);
    } else {
      CreatingRuns(v, id);
    }
    hide LastOf, UpToDate;
    Prepends(t2, Decide, last);
    Prepends(t1, EnsureFinalizer(Succeeded), [Decide] + last);
    Prepends(t, Begin, [EnsureFinalizer(Succeeded)] + ([Decide] + last));
  }

  lemma {:induction false} FourCalls(o: Entity, pending: Option<string>, e: Event)
    requires !o.deleting && (o.konnectID != "" || pending.Some?)
    requires e == PersistRecovered(Succeeded) || (e.UpdateStatus? && e.w == Succeeded)
    requires e.UpdateStatus? <==> o.konnectID != ""
    ensures var pass := [Begin, EnsureFinalizer(Succeeded), Decide, e];
      CompletePass(o, pending, false, false, pass) && NothingFails(pass)
  {
  }

  lemma {:induction false} FiveCalls(o: Entity, pending: Option<string>, id: string)
    requires !o.deleting && o.konnectID == "" && pending.None?
    ensures var pass := [Begin, EnsureFinalizer(Succeeded), Decide, CreateSucceeds(id), PersistCreated(Succeeded)];
      CompletePass(o, pending, false, false, pass) && NothingFails(pass)
  {
  }

  lemma {:induction false} LivePassExists(t: State, id: string, rest: int) returns (pass: seq<Event>)
    requires UpToDate(t) && id != "" && id !in t.used && !Server(t).value.deleting
    ensures Undisturbed(t, pass)
  {
    hide Inv, Alive, IsRun, CompletePass, NothingFails;
    var o := Server(t).value;
    LiveRun(t, id, rest);
    var last := LastOf(o, t.pending, id, rest);
    pass := [Begin] + ([EnsureFinalizer(Succeeded)] + ([Decide] + last));
    if o.konnectID != "" || t.pending.Some? {
      FourCalls(o, t.pending, last[0]);
      assert pass == [Begin, EnsureFinalizer(Succeeded), Decide, last[0]];
    } else {
      FiveCalls(o, t.pending, id);
      assert pass == [Begin, EnsureFinalizer(Succeeded), Decide, CreateSucceeds(id), PersistCreated(Succeeded)];
    }
  }

  lemma {:induction false} DeletingPassExists(t: State) returns (pass: seq<Event>)
    requires UpToDate(t) && Server(t).value.deleting
    ensures Undisturbed(t, pass)
  {
    hide Inv, Alive;
    var e, f := DeleteSucceeds(""), RemoveFinalizer(Succeeded, Server(t).value.others);
    var t1 := Step(t, Begin);
    var t2 := Step(t1, e);
    assert [f][1..] == [];
    assert Enabled(t2, f) && |Step(t2, f).history| > 0;
    assert IsRun(t2, [f]);
    Prepends(t1, e, [f]);
    Prepends(t, Begin, [e] + [f]);
    pass := [Begin] + ([e] + [f]);
    assert pass == [Begin, e, f];
  }

  /** There always is such a pass. */
  lemma {:induction false} PassExists(s: State, es: seq<Event>, id: string) returns (pass: seq<Event>)
    requires Initial(s) && IsRun(s, es) && After(s, es).phase.Idle? && Server(After(s, es)).Some?
    requires id != "" && id !in After(s, es).used
    ensures Undisturbed(Caught(After(s, es)), pass)
  {
    ReachedUpToDate(s, es);
    var t := Caught(After(s, es));
    hide Inv, Alive, IsRun, After, Initial, NothingFails, CompletePass;
    if Server(t).value.deleting {
      pass := DeletingPassExists(t);
    } else {
      pass := LivePassExists(t, id, 0);
    }
  }
}
