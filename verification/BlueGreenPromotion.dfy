/**
 When a promotion happens, on the fields: exactly which passes make the preview the live selector, what
 the RolledOut condition reports meanwhile, and that an edit of the spec is rolled out to the end.
 */
module BlueGreenPromotion {
  import opened Wrappers
  import opened BlueGreen
  import opened BlueGreenSafety
  import opened BlueGreenRemoval

  /** There is a preview Deployment to promote, not scaled down. */
  predicate Staged(s: State) {
    |s.deployments| == 2 && !s.deployments[1].live && !s.deployments[1].scaledDown
  }

  /** The RolledOut condition is of the current generation. */
  predicate Current(s: State) {
    s.rolledOut.Some? && s.rolledOut.value.observed == s.generation
  }

  /** The state in which such a preview is looked at. */
  function Looked(s: State, isFalse: bool): State
    requires s.ready.Some?
  {
    var t := LiveReady(s, isFalse);
    if Current(s) then t else Noting(t, Progressing, true)
  }

  lemma {:induction false} StagedFacts(s: State)
    requires Inv(s) && Staged(s)
    ensures !ShouldDelegate(s) && s.ready.Some? && s.ready.value.observed < s.generation && s.selector.Some?
    ensures s.preview == Some(s.deployments[1].selector)
    ensures s.rolledOut.Some? ==> !s.rolledOut.value.reason.PromotionDone?
    ensures Live(s.deployments) == s.deployments[..1] && Previews(s.deployments) == [s.deployments[1]]
  {
    InvLists(s);
  }

  lemma {:induction false} LookedIs(s: State, isFalse: bool)
    requires Inv(s) && Staged(s)
    ensures var v := Looked(s, isFalse);
      && v == s.(ready := v.ready, rolledOut := v.rolledOut) && v.ready.Some? && Current(v)
      && v.ready.value.observed < v.generation && v.preview == Some(s.deployments[1].selector)
      && v.rolledOut == if Current(s) then s.rolledOut else Some(RolledOut(Progressing, s.generation))
  {
    StagedFacts(s);
    hide Inv, Live;
  }

  lemma {:induction false} StagedAdvance(s: State, a: Around)
    requires Inv(s) && s.blueGreen && Staged(s)
    ensures s.ready.Some? && !StopsAtReadyCheck(s) && Pass(s, a) == Advance(s, a)
    ensures Advance(s, a) == if a.stopsAtReadyCheck then s else Judge(LiveReady(s, a.liveReadyFalse), a)
  {
    StagedFacts(s);
    assert |s.deployments[..1]| == 1;
    hide Inv, Live, Previews, Judge, ShouldDelegate, Delegate;
  }

  lemma {:induction false} StagedJudge(s: State, a: Around)
    requires Inv(s) && Staged(s)
    ensures s.ready.Some? && s.preview.Some?
    ensures var t := LiveReady(s, a.liveReadyFalse);
      Judge(t, a) == if !Current(s) && !a.records then t
                     else if a.stopsEarly then Noting(Looked(s, a.liveReadyFalse), RolloutFailed, a.records)
                     else Rollout(Looked(s, a.liveReadyFalse), a)
  {
    StagedFacts(s);
    LookedIs(s, a.liveReadyFalse);
    hide Inv, Live, Previews, Rollout;
  }

  lemma {:induction false} StagedRollout(s: State, v: State, a: Around)
    requires Inv(s) && Staged(s) && v.deployments == s.deployments && v.ready.Some? && Current(v)
    requires v.ready.value.observed < v.generation && v.preview.Some?
    ensures Rollout(v, a) ==
      if a.stopsAtDeployment then Noting(v, RolloutFailed, a.records) else Await(v, s.deployments[1], a)
  {
    StagedFacts(s);
    hide Inv, Live, Previews, Await;
  }

  /** A pass over a staged preview looks at it, unless something stops the pass before. */
  lemma {:induction false} StagedPass(s: State, a: Around)
    requires Inv(s) && s.blueGreen && Staged(s)
    ensures s.ready.Some?
    ensures var v := Looked(s, a.liveReadyFalse);
      && v.preview.Some? && v.rolledOut.Some?
      && Pass(s, a) ==
         if a.stopsAtReadyCheck then s
         else if !Current(s) && !a.records then LiveReady(s, a.liveReadyFalse)
         else if a.stopsEarly || a.stopsAtDeployment then Noting(v, RolloutFailed, a.records)
         else Await(v, s.deployments[1], a)
  {
    StagedAdvance(s, a);
    StagedJudge(s, a);
    LookedIs(s, a.liveReadyFalse);
    StagedRollout(s, Looked(s, a.liveReadyFalse), a);
    hide Inv, Pass, Advance, Judge, Rollout, Await, Live, Looked;
  }

  lemma {:induction false} FinishSelector(v: State, a: Around)
    requires v.preview.Some?
    ensures Finish(v, a).selector == v.selector
  {
    hide Reduced, Updated, WithSelector;
  }

  lemma {:induction false} PromoteSelector(v: State, a: Around)
    requires v.preview.Some? && v.selector.Some?
    ensures var u := Promote(v, a);
      && (u.selector != v.selector <==> v.selector != v.preview && !a.overrideFails)
      && (u.selector != v.selector ==> u == v.(selector := v.preview))
  {
    hide Delegate, Finish, Noting;
    LiveDeploymentSelector(v, a.delegate);
    FinishSelector(v, a);
    assert Noting(v, PromotionFailed, a.records).selector == v.selector by {
      NotingSelector(v, PromotionFailed, a.records);
    }
  }

  lemma {:induction false} NotingSelector(v: State, reason: Reason, recorded: bool)
    ensures var u := Noting(v, reason, recorded); u == v.(rolledOut := u.rolledOut)
  {
  }

  lemma {:induction false} BeginSelector(v: State, a: Around)
    requires v.preview.Some? && v.rolledOut.Some? && v.selector.Some?
    ensures var u := Begin(v, a);
      && (u.selector != v.selector <==>
            v.selector != v.preview && !a.overrideFails && (a.records || v.rolledOut.value.reason == PromotionFailed))
      && (u.selector != v.selector ==> u == v.(selector := v.preview, rolledOut := u.rolledOut))
  {
    hide Promote;
    PromoteSelector(v, a);
    PromoteSelector(Noting(v, PromotionInProgress, true), a);
  }

  lemma {:induction false} AwaitSelector(v: State, d: Deployment, a: Around)
    requires v.preview.Some? && v.rolledOut.Some? && v.selector.Some?
    ensures var u := Await(v, d, a);
      && (u.selector != v.selector <==>
            && !d.scaledDown && d.replicas > 0 && d.available == d.replicas && d.ready == d.replicas
            && (v.strategy == AutomaticPromotion || (v.strategy == BreakBeforePromotion && v.promoteWhenReady))
            && v.selector != v.preview && !a.overrideFails
            && (a.records || v.rolledOut.value.reason == PromotionFailed))
      && (u.selector != v.selector ==> u == v.(selector := v.preview, rolledOut := u.rolledOut))
  {
    hide Begin;
    BeginSelector(v, a);
  }

  lemma {:induction false} RolloutKeepsSelector(t: State, a: Around)
    requires Shape(t) && !Staged(t) && t.preview.Some? && t.ready.Some? && t.rolledOut.Some?
    ensures Rollout(t, a).selector == t.selector
  {
    Lists(t);
    hide Live, Previews, Begin, Updated;
  }

  lemma {:induction false} PrepareKeepsSelector(u: State, a: Around)
    requires Shape(u) && !Staged(u) && u.preview.Some? && u.ready.Some? && u.rolledOut.Some?
    ensures Prepare(u, a).selector == u.selector
  {
    hide Live, Rollout;
    RolloutKeepsSelector(u, a);
  }

  lemma {:induction false} JudgeKeepsSelector(u: State, a: Around)
    requires Shape(u) && !Staged(u) && u.preview.Some? && u.ready.Some?
    ensures Judge(u, a).selector == u.selector
  {
    hide Prepare;
    var t := u.(ready := Some(Ready(a.readyFalse, u.generation, false)));
    if u.rolledOut.Some? {
      PrepareKeepsSelector(u, a);
      PrepareKeepsSelector(t, a);
    }
    PrepareKeepsSelector(Noting(u, Progressing, true), a);
  }

  lemma {:induction false} AdvanceKeepsSelector(s: State, a: Around)
    requires Shape(s) && !Staged(s) && s.ready.Some?
    ensures Advance(s, a).selector == s.selector
  {
    hide Live, Judge;
    var t := LiveReady(s, a.liveReadyFalse);
    JudgeKeepsSelector(if t.preview.None? then t.(preview := Some(a.uuid), used := t.used + {a.uuid}) else t, a);
  }

  lemma {:induction false} OtherwiseKept(s: State, a: Around)
    requires Shape(s) && s.blueGreen && !Staged(s) && s.selector.Some?
    ensures Pass(s, a).selector == s.selector
  {
    hide Shape, Advance, LiveDeployment;
    if ShouldDelegate(s) {
      LiveDeploymentSelector(s, a.delegate);
    } else {
      AdvanceKeepsSelector(s, a);
    }
  }

  lemma {:induction false} LiveDeploymentSelector(s: State, d: DelegateAround)
    requires s.selector.Some?
    ensures Delegate(s, d).selector == s.selector
  {
    hide Live, Without, Kept;
  }

  /** Under the strategy a pass, whatever happens around it, replaces the live selector if and only if
      there is a preview Deployment that is not scaled down, all of whose replicas, at least one, are
      available and ready, it may be promoted, it is not the live one yet, and no request on the way fails. */
  lemma {:induction false} PromotesIff(s: State, es: seq<Event>, a: Around)
    requires Initial(s) && IsRun(s, es) && StaysBlueGreen(es) && After(s, es).selector.Some?
    ensures var t := After(s, es);
      Pass(t, a).selector != t.selector <==>
        && |t.deployments| == 2 && !t.deployments[1].live && !t.deployments[1].scaledDown
        && var d := t.deployments[1];
        && d.replicas > 0 && d.available == d.replicas && d.ready == d.replicas
        && (t.strategy == AutomaticPromotion || (t.strategy == BreakBeforePromotion && t.promoteWhenReady))
        && t.selector != Some(d.selector)
        && !a.stopsAtReadyCheck && !a.stopsEarly && !a.stopsAtDeployment && !a.overrideFails
        && (a.records || t.rolledOut == Some(RolledOut(PromotionFailed, t.generation)))
  {
    InitialInv(s);
    RunInv(s, es);
    PassPromotesIff(After(s, es), a);
  }

  lemma {:induction false} PassPromotesIff(t: State, a: Around)
    requires Inv(t) && t.blueGreen && t.selector.Some?
    ensures Pass(t, a).selector != t.selector <==>
      && |t.deployments| == 2 && !t.deployments[1].live && !t.deployments[1].scaledDown
      && var d := t.deployments[1];
      && d.replicas > 0 && d.available == d.replicas && d.ready == d.replicas
      && (t.strategy == AutomaticPromotion || (t.strategy == BreakBeforePromotion && t.promoteWhenReady))
      && t.selector != Some(d.selector)
      && !a.stopsAtReadyCheck && !a.stopsEarly && !a.stopsAtDeployment && !a.overrideFails
      && (a.records || t.rolledOut == Some(RolledOut(PromotionFailed, t.generation)))
  {
    if Staged(t) {
      StagedPass(t, a);
      LookedIs(t, a.liveReadyFalse);
      AwaitSelector(Looked(t, a.liveReadyFalse), t.deployments[1], a);
      hide Inv, Pass, Await, Looked, Live;
    } else {
      OtherwiseKept(t, a);
    }
  }

  /** So in every run under the strategy, whenever the live selector changes, the Deployment with the new one
      was there, wholly available, and its promotion asked for; and nothing else changes in that pass. */
  lemma {:induction false} OnlyAvailableIsPromoted(s: State, es: seq<Event>, e: Event)
    requires Initial(s) && IsRun(s, es) && StaysBlueGreen(es) && Enabled(After(s, es), e)
    ensures var t := After(s, es);
      var u := Step(t, e);
      t.selector.Some? && u.selector != t.selector ==>
        && |t.deployments| == 2 && u.selector == Some(t.deployments[1].selector) == t.preview
        && var d := t.deployments[1];
        && !d.live && !d.scaledDown && d.replicas > 0 && d.available == d.replicas && d.ready == d.replicas
        && (t.strategy == AutomaticPromotion || (t.strategy == BreakBeforePromotion && t.promoteWhenReady))
        && u == t.(selector := t.preview, ready := u.ready, rolledOut := u.rolledOut)
  {
    InitialInv(s);
    RunInv(s, es);
    var t := After(s, es);
    if e.Reconciles? && t.selector.Some? && Step(t, e).selector != t.selector {
      PassPromotesIff(t, e.a);
      PromotingPass(t, e.a);
    }
    hide Inv, Pass, IsRun;
  }

  lemma {:induction false} PromotingPass(t: State, a: Around)
    requires Inv(t) && t.blueGreen && Staged(t) && Pass(t, a).selector != t.selector
    ensures var u := Pass(t, a); u == t.(selector := t.preview, ready := u.ready, rolledOut := u.rolledOut)
    ensures t.preview == Some(t.deployments[1].selector)
  {
    StagedPass(t, a);
    StagedFacts(t);
    LookedIs(t, a.liveReadyFalse);
    AwaitSelector(Looked(t, a.liveReadyFalse), t.deployments[1], a);
    hide Inv, Pass, Await, Looked, Live;
  }

  // ---------------------------------------------------------------- what is reported

  lemma {:induction false} DelegateReports(t: State, d: DelegateAround)
    ensures Delegate(t, d).rolledOut == t.rolledOut
  {
    hide Live, Without, Kept;
  }

  lemma {:induction false} PromoteReports(v: State, a: Around)
    requires v.preview.Some? && v.rolledOut.Some?
    ensures var u := Promote(v, a);
      u.rolledOut == v.rolledOut
      || (u.rolledOut.Some? && (u.rolledOut.value.reason.PromotionFailed? || u.rolledOut.value.reason.PromotionDone?))
  {
    hide Delegate, Reduced, Updated, WithSelector;
    DelegateReports(v, a.delegate);
  }

  lemma {:induction false} AwaitReports(v: State, d: Deployment, a: Around)
    requires v.preview.Some? && Current(v) && a.records && !d.scaledDown
    ensures var u := Await(v, d, a);
      var available := d.replicas > 0 && d.available == d.replicas && d.ready == d.replicas;
      && (u.rolledOut == Some(RolledOut(Progressing, v.generation)) <==>
            !available || (v.strategy == UnknownStrategy && v.rolledOut.value.reason == Progressing))
      && (u.rolledOut == Some(RolledOut(AwaitingPromotion, v.generation)) <==>
            available && ((v.strategy == BreakBeforePromotion && !v.promoteWhenReady)
                          || (v.strategy == UnknownStrategy && v.rolledOut.value.reason == AwaitingPromotion)))
  {
    hide Promote;
    PromoteReports(v, a);
    PromoteReports(Noting(v, PromotionInProgress, true), a);
  }

  /** While a preview Deployment is not scaled down, an undisturbed pass reports Progressing exactly when
      it is not wholly available, and AwaitingPromotion exactly when it is and may not be promoted.  Under a
      strategy that is none of the two, which is an error, a wholly available one is reported as before. */
  lemma {:induction false} ReportsIff(t: State, uuid: nat)
    requires Inv(t) && t.blueGreen && Staged(t)
    ensures var u := Pass(t, Plain(uuid, false).a);
      var d := t.deployments[1];
      var available := d.replicas > 0 && d.available == d.replicas && d.ready == d.replicas;
      var before := if t.rolledOut.Some? && t.rolledOut.value.observed == t.generation then t.rolledOut.value.reason
                    else Progressing;
      && (u.rolledOut == Some(RolledOut(Progressing, t.generation)) <==>
            !available || (t.strategy == UnknownStrategy && before == Progressing))
      && (u.rolledOut == Some(RolledOut(AwaitingPromotion, t.generation)) <==>
            available && ((t.strategy == BreakBeforePromotion && !t.promoteWhenReady)
                          || (t.strategy == UnknownStrategy && before == AwaitingPromotion)))
  {
    hide Inv, Pass, Await, Looked, Live, Plain;
    var a := Plain(uuid, false).a;
    Quietly(uuid);
    StagedPass(t, a);
    LookedIs(t, false);
    AwaitReports(Looked(t, false), t.deployments[1], a);
  }

  lemma {:induction false} Quietly(uuid: nat)
    ensures var a := Plain(uuid, false).a;
      && !a.stopsAtReadyCheck && !a.liveReadyFalse && a.records && !a.stopsEarly && !a.stopsAtDeployment
  {
  }

  lemma {:induction false} AwaitNotes(v: State, d: Deployment, a: Around)
    requires v.preview.Some? && Current(v) && v.selector.Some? && a.records
    requires !d.scaledDown && d.replicas > 0 && d.available == d.replicas && d.ready == d.replicas
    requires v.strategy == AutomaticPromotion || (v.strategy == BreakBeforePromotion && v.promoteWhenReady)
    requires v.selector != v.preview
    ensures Await(v, d, a).rolledOut ==
      Some(RolledOut(if a.overrideFails || v.rolledOut.value.reason == PromotionFailed then PromotionFailed
                     else PromotionInProgress, v.generation))
  {
    hide Delegate, Finish;
  }

  /** Failures are reported: RolloutFailed when a preview resource cannot be ensured, PromotionFailed when the
      live selector cannot be replaced; and a promotion that failed keeps saying so while it is tried again. */
  lemma {:induction false} FailuresAreReported(t: State, a: Around)
    requires Inv(t) && t.blueGreen && Staged(t) && a.records && !a.stopsAtReadyCheck
    ensures var u, d := Pass(t, a), t.deployments[1];
      && (a.stopsEarly || a.stopsAtDeployment ==> u.rolledOut == Some(RolledOut(RolloutFailed, t.generation)))
      && (!a.stopsEarly && !a.stopsAtDeployment
          && d.replicas > 0 && d.available == d.replicas && d.ready == d.replicas
          && (t.strategy == AutomaticPromotion || (t.strategy == BreakBeforePromotion && t.promoteWhenReady))
          && t.selector != Some(d.selector) ==>
            u.rolledOut == Some(RolledOut(
              if a.overrideFails || t.rolledOut == Some(RolledOut(PromotionFailed, t.generation)) then PromotionFailed
              else PromotionInProgress, t.generation)))
  {
    StagedPass(t, a);
    StagedFacts(t);
    LookedIs(t, a.liveReadyFalse);
    var v, d := Looked(t, a.liveReadyFalse), t.deployments[1];
    hide Inv, Pass, Await, Looked, Live;
    if d.replicas > 0 && d.available == d.replicas && d.ready == d.replicas
       && (t.strategy == AutomaticPromotion || (t.strategy == BreakBeforePromotion && t.promoteWhenReady))
       && t.selector != Some(d.selector) {
      AwaitNotes(v, d, a);
    }
  }

  // ---------------------------------------------------------------- a promotion to its end

  /** A preview that may be promoted: wholly available, and asked for. */
  predicate Promoting(s: State) {
    && Inv(s) && s.blueGreen && Staged(s)
    && var d := s.deployments[1];
    && d.replicas > 0 && d.available == d.replicas && d.ready == d.replicas
    && (s.strategy == AutomaticPromotion || (s.strategy == BreakBeforePromotion && s.promoteWhenReady))
  }

  /** How many of the live selector and the two live Services are still to follow the preview. */
  function Following(s: State): nat {
    (if s.selector != s.preview then 1 else 0) + (if s.admin != s.preview then 1 else 0)
    + (if s.ingress != s.preview then 1 else 0)
  }

  function Passes(s: State, uuid: nat, n: nat): State
    decreases n
  {
    if n == 0 then s else Passes(Pass(s, Plain(uuid, false).a), uuid, n - 1)
  }

  /** Only the Deployment `d` is there, live and selected by both live Services, and the rollout is over; Ready
      has still to catch up with the generation. */
  predicate PromotedTo(s: State, d: Deployment) {
    && s.deployments == [d.(live := true)]
    && s.selector == s.admin == s.ingress == Some(d.selector) && s.preview.None? && !s.promoteWhenReady
    && s.rolledOut == Some(RolledOut(PromotionDone, s.generation))
    && s.ready.Some? && s.ready.value.observed < s.generation
  }

  lemma {:induction false} PromotingBegins(s: State, uuid: nat)
    requires Promoting(s)
    ensures s.ready.Some?
    ensures var v := Looked(s, false);
      && v.preview == s.preview == Some(s.deployments[1].selector) && s.selector.Some?
      && v == s.(ready := v.ready, rolledOut := v.rolledOut) && v.ready.Some? && v.rolledOut.Some?
      && v.ready.value.observed < v.generation
      && exists r: RolledOut :: Pass(s, Plain(uuid, false).a) ==
                Promote(v.(rolledOut := Some(r)), Plain(uuid, false).a)
  {
    var a := Plain(uuid, false).a;
    StagedFacts(s);
    StagedPass(s, a);
    LookedIs(s, false);
    AwaitBegins(Looked(s, false), s.deployments[1], a);
    hide Inv, Pass, Await, Looked, Live, Promote;
  }

  lemma {:induction false} AwaitBegins(v: State, d: Deployment, a: Around)
    requires v.preview.Some? && v.rolledOut.Some? && a.records && !d.scaledDown
    requires d.replicas > 0 && d.available == d.replicas && d.ready == d.replicas
    requires v.strategy == AutomaticPromotion || (v.strategy == BreakBeforePromotion && v.promoteWhenReady)
    ensures exists r: RolledOut :: Await(v, d, a) == Promote(v.(rolledOut := Some(r)), a)
  {
    hide Promote;
    if v.rolledOut.value.reason.PromotionFailed? {
      assert v == v.(rolledOut := Some(v.rolledOut.value));
    } else {
      assert Noting(v, PromotionInProgress, true) ==
          v.(rolledOut := Some(RolledOut(PromotionInProgress, v.generation)));
    }
  }

  /** One undisturbed pass: the selector first, then the Service of the admin API, then the ingress Service. */
  lemma {:induction false} PromotingPass1(s: State, uuid: nat)
    requires Promoting(s) && Following(s) > 0
    ensures var u := Pass(s, Plain(uuid, false).a);
      && u == s.(selector := u.selector, admin := u.admin, ingress := u.ingress, ready := u.ready,
                 rolledOut := u.rolledOut)
      && Following(u) == Following(s) - 1
      && (s.selector != s.preview ==> u.admin == s.admin && u.ingress == s.ingress)
      && (s.admin != s.preview ==> u.ingress == s.ingress)
  {
    var a := Plain(uuid, false).a;
    PromotingBegins(s, uuid);
    hide Inv, Pass, Promote, Looked;
    var v := Looked(s, false);
    var r: RolledOut :| Pass(s, a) == Promote(v.(rolledOut := Some(r)), a);
    FollowOne(v.(rolledOut := Some(r)), uuid);
  }

  lemma {:induction false} FollowOne(v: State, uuid: nat)
    requires v.preview.Some? && v.selector.Some? && v.ready.Some? && Following(v) > 0
    ensures Promote(v, Plain(uuid, false).a) ==
      if v.selector != v.preview then v.(selector := v.preview)
      else if v.admin != v.preview then v.(admin := v.preview)
      else v.(ingress := v.preview)
  {
    hide Finish, LiveDeployment;
  }

  lemma {:induction false} FinishAll(v: State, uuid: nat)
    requires |v.deployments| == 2 && v.ready.Some? && v.ready.value.observed < v.generation
    requires v.deployments[0].live && v.deployments[1].created != v.deployments[0].created
    requires !v.deployments[1].live && v.preview == Some(v.deployments[1].selector)
    requires v.deployments[0].selector != v.deployments[1].selector
    requires v.selector == v.preview && v.admin == v.preview && v.ingress == v.preview
    ensures PromotedTo(Promote(v, Plain(uuid, false).a), v.deployments[1])
    ensures var u := Promote(v, Plain(uuid, false).a);
      u.generation == v.generation && u.strategy == v.strategy
  {
    var a := Plain(uuid, false).a;
    var ds := v.deployments;
    MatchingOne(ds);
    assert Updated(ds, ds[1], ds[1].(live := true)) == [ds[0], ds[1].(live := true)];
    ReducedTwo([ds[0], ds[1].(live := true)], 1);
    hide Delegate, Reduced, Updated, WithSelector;
    assert Promote(v, a) == Finish(v, a);
  }

  lemma {:induction false} MatchingOne(ds: seq<Deployment>)
    requires |ds| == 2 && ds[0].selector != ds[1].selector
    ensures WithSelector(ds, ds[1].selector) == [ds[1]]
  {
    assert ds[..1][..0] == [];
    assert WithSelector(ds[..1], ds[1].selector) == [];
  }

  lemma {:induction false} StagedShape(s: State)
    requires Inv(s) && Staged(s)
    ensures var ds := s.deployments;
      ds[0].live && ds[1].created != ds[0].created && ds[0].selector != ds[1].selector
  {
  }

  /** Once the preview is wholly available and its promotion asked for, an undisturbed pass for the live
      selector and one for each live Service that are not at it yet, and one more, leave the promoted
      Deployment alone: live, selected by both Services, the approval spent, PromotionDone reported.  Until
      the last of these passes both Deployments stay as they are. */
  lemma {:induction false} PromotionCompletes(s: State, uuid: nat)
    requires Promoting(s) && Enabled(s, Plain(uuid, false))
    ensures forall k :: 0 <= k <= Following(s) ==> Passes(s, uuid, k).deployments == s.deployments
    ensures PromotedTo(Passes(s, uuid, Following(s) + 1), s.deployments[1])
    decreases Following(s)
  {
    hide Inv, Pass, PromotedTo;
    var t := Pass(s, Plain(uuid, false).a);
    if Following(s) == 0 {
      LastPass(s, uuid);
      assert Passes(t, uuid, 0) == t;
    } else {
      PromotingPass1(s, uuid);
      StillPromoting(s, t, uuid);
      PromotionCompletes(t, uuid);
      forall k | 0 <= k <= Following(s) ensures Passes(s, uuid, k).deployments == s.deployments {
        assert k > 0 ==> Passes(s, uuid, k) == Passes(t, uuid, k - 1);
      }
    }
  }

  lemma {:induction false} StillPromoting(s: State, t: State, uuid: nat)
    requires Promoting(s) && Enabled(s, Plain(uuid, false)) && t == Pass(s, Plain(uuid, false).a)
    requires t == s.(selector := t.selector, admin := t.admin, ingress := t.ingress, ready := t.ready,
                     rolledOut := t.rolledOut)
    ensures Promoting(t) && Enabled(t, Plain(uuid, false))
  {
    PassInv(s, Plain(uuid, false).a);
    hide Inv, Pass;
  }

  lemma {:induction false} LastPass(s: State, uuid: nat)
    requires Promoting(s) && Following(s) == 0
    ensures PromotedTo(Pass(s, Plain(uuid, false).a), s.deployments[1])
  {
    var a := Plain(uuid, false).a;
    PromotingBegins(s, uuid);
    StagedShape(s);
    hide Inv, Pass, Promote, Looked, PromotedTo;
    var v := Looked(s, false);
    var r: RolledOut :| Pass(s, a) == Promote(v.(rolledOut := Some(r)), a);
    FinishAll(v.(rolledOut := Some(r)), uuid);
  }

  // ---------------------------------------------------------------- from an edit to its promotion

  lemma {:induction false} PassIs(t: State, a: Around)
    requires t.blueGreen
    ensures Pass(t, a) == if ShouldDelegate(t) then Delegate(t, a.delegate) else Advance(t, a)
  {
    hide ShouldDelegate, Delegate, Advance;
  }

  lemma {:induction false} OneLive(t: State)
    requires Inv(t) && |t.deployments| == 1
    ensures Shape(t) && !HasPreview(t) && !TwoLive(t) && t.selector.Some?
    ensures Live(t.deployments) == t.deployments && Previews(t.deployments) == []
  {
    InvLists(t);
  }

  lemma {:induction false} AdvanceIs(t: State, uuid: nat)
    requires t.ready.Some? && |Live(t.deployments)| == 1
    ensures var w := LiveReady(t, false);
      var v := if w.preview.None? then w.(preview := Some(uuid), used := w.used + {uuid}) else w;
      Advance(t, Plain(uuid, false).a) == Judge(v, Plain(uuid, false).a)
  {
    hide Live, Judge;
  }

  /** What is left of a pass once the conditions are judged. */
  lemma {:induction false} JudgeIs(u: State, uuid: nat)
    requires u.preview.Some? && u.ready.Some? && |Live(u.deployments)| == 1
    ensures var promoted := u.rolledOut == Some(RolledOut(PromotionDone, u.generation));
      var v := if promoted then u.(ready := Some(Ready(false, u.generation, false)))
               else if Current(u) then u else Noting(u, Progressing, true);
      && Current(v)
      && v == u.(ready := v.ready, rolledOut := v.rolledOut) && v.ready.Some?
      && (v.ready.value.observed == v.generation <==> promoted || u.ready.value.observed == u.generation)
      && Judge(u, Plain(uuid, false).a) == Rollout(v, Plain(uuid, false).a)
  {
    hide Live, Rollout;
  }

  lemma {:induction false} RolloutCreates(v: State, uuid: nat)
    requires v.preview.Some? && v.ready.Some? && Current(v) && Previews(v.deployments) == []
    ensures Rollout(v, Plain(uuid, false).a) == WithPreview(v, v.ready.value.observed == v.generation)
  {
    hide Previews, Await;
  }

  lemma {:induction false} AdvanceCreates(t: State, uuid: nat)
    requires t.ready.Some? && |t.deployments| == 1 && Live(t.deployments) == t.deployments
    requires Previews(t.deployments) == []
    ensures var u := Advance(t, Plain(uuid, false).a);
      var down := t.ready.value.observed == t.generation
                  || t.rolledOut == Some(RolledOut(PromotionDone, t.generation));
      && u.preview.Some? && u.preview == (if t.preview.Some? then t.preview else Some(uuid))
      && u.deployments == t.deployments + [Deployment(t.clock, u.preview.value, false, down, 0, 0, 0)]
      && u.selector == t.selector && u.admin == t.admin && u.ingress == t.ingress
      && u.used <= t.used + {uuid} && u.generation == t.generation && u.strategy == t.strategy
      && u.promoteWhenReady == t.promoteWhenReady
  {
    var a := Plain(uuid, false).a;
    AdvanceIs(t, uuid);
    hide Live, Previews, Advance, Judge, Rollout, Plain;
    var w := LiveReady(t, false);
    var v := if w.preview.None? then w.(preview := Some(uuid), used := w.used + {uuid}) else w;
    JudgeIs(v, uuid);
    var r := if v.rolledOut == Some(RolledOut(PromotionDone, v.generation))
      then v.(ready := Some(Ready(false, v.generation, false)))
      else if Current(v) then v else Noting(v, Progressing, true);
    RolloutCreates(r, uuid);
  }

  /** With one live Deployment, an undisturbed pass creates a preview Deployment exactly when it is not for
      the plain controller: Ready is not False for this generation, and the rollout not waiting for a change
      at it.  The Deployment is scaled down exactly when this generation is live already. */
  lemma {:induction false} PreviewCreatedIff(t: State, uuid: nat)
    requires Inv(t) && t.blueGreen && |t.deployments| == 1 && t.ready.Some?
    ensures var u := Pass(t, Plain(uuid, false).a);
      var upToDate := t.ready.value.observed == t.generation;
      && (u.deployments != t.deployments <==>
            !(upToDate && (t.ready.value.isFalse || t.rolledOut == Some(RolledOut(WaitingForChange, t.generation)))))
      && (u.deployments != t.deployments ==>
            && u.preview.Some? && u.preview == (if t.preview.Some? then t.preview else Some(uuid))
            && u.deployments == t.deployments
                 + [Deployment(t.clock, u.preview.value, false,
                        upToDate || t.rolledOut == Some(RolledOut(PromotionDone, t.generation)), 0, 0, 0)]
            && u.selector == t.selector && u.admin == t.admin && u.ingress == t.ingress)
  {
    var a := Plain(uuid, false).a;
    OneLive(t);
    hide Inv, Pass, Live, Previews, Delegate, Advance;
    if ShouldDelegate(t) {
      DelegateLeaves(t, a.delegate);
      assert Pass(t, a) == Delegate(t, a.delegate) by {
        PassIs(t, a);
      }
    } else {
      PassIs(t, a);
      AdvanceCreates(t, uuid);
      assert t.deployments + [Deployment(t.clock, 0, false, true, 0, 0, 0)] != t.deployments;
    }
  }

  /** Judging the conditions just after a promotion. */
  lemma {:induction false} JudgePromoted(u: State, uuid: nat)
    requires u.preview.Some? && u.ready.Some? && |Live(u.deployments)| == 1
    requires u.rolledOut == Some(RolledOut(PromotionDone, u.generation))
    ensures Judge(u, Plain(uuid, false).a) ==
      Rollout(u.(ready := Some(Ready(false, u.generation, false))), Plain(uuid, false).a)
  {
    hide Live, Rollout;
  }

  /** What follows a promotion: a new preview, scaled down. */
  function Restaged(s: State, uuid: nat): State {
    s.(preview := Some(uuid), used := s.used + {uuid}, clock := s.clock + 1,
       deployments := s.deployments + [Deployment(s.clock, uuid, false, true, 0, 0, 0)],
       ready := Some(Ready(false, s.generation, false)))
  }

  lemma {:induction false} PromotedFacts(s: State, d: Deployment)
    requires PromotedTo(s, d)
    ensures !ShouldDelegate(s) && |Live(s.deployments)| == 1 && Previews(s.deployments) == []
    ensures LiveReady(s, false) == s.(ready := Some(Ready(false, s.ready.value.observed, false)))
  {
    ListedOne(d.(live := true));
  }

  lemma {:induction false} PassAfterPromotion(s: State, d: Deployment, uuid: nat)
    requires s.blueGreen && PromotedTo(s, d)
    ensures Pass(s, Plain(uuid, false).a) == Restaged(s, uuid)
  {
    hide Pass, Live, LiveReady, Previews, Advance, Judge, Rollout, ShouldDelegate, Delegate, Plain;
    var a := Plain(uuid, false).a;
    PromotedFacts(s, d);
    PassIs(s, a);
    AdvanceIs(s, uuid);
    var u := s.(ready := Some(Ready(false, s.ready.value.observed, false)), preview := Some(uuid),
                used := s.used + {uuid});
    JudgePromoted(u, uuid);
    RolloutCreates(u.(ready := Some(Ready(false, u.generation, false))), uuid);
  }

  lemma {:induction false} RolloutWaits(v: State, d: Deployment, e: Deployment, uuid: nat)
    requires v.deployments == [d, e] && d.live && !e.live && e.scaledDown
    requires v.preview.Some? && v.ready.Some? && Current(v) && v.ready.value.observed == v.generation
    ensures Rollout(v, Plain(uuid, false).a) == v.(rolledOut := Some(RolledOut(WaitingForChange, v.generation)))
  {
    ListedTwo(d, e);
    hide Live, Previews, Begin;
  }

  lemma {:induction false} SecondPassAfterPromotion(t: State, d: Deployment, e: Deployment, uuid: nat)
    requires t.blueGreen && t.deployments == [d, e] && d.live && !e.live && e.scaledDown && t.preview.Some?
    requires t.ready == Some(Ready(false, t.generation, false))
    requires t.rolledOut == Some(RolledOut(PromotionDone, t.generation))
    ensures Pass(t, Plain(uuid, false).a) == t.(rolledOut := Some(RolledOut(WaitingForChange, t.generation)))
  {
    var a := Plain(uuid, false).a;
    ListedTwo(d, e);
    assert !ShouldDelegate(t);
    PassIs(t, a);
    hide Pass, Live, Previews, Advance, Judge, Rollout, ShouldDelegate, Delegate;
    AdvanceIs(t, uuid);
    assert LiveReady(t, false) == t;
    JudgePromoted(t, uuid);
    RolloutWaits(t, d, e, uuid);
  }

  lemma {:induction false} WaitingPass(u: State, d: Deployment, e: Deployment, uuid: nat)
    requires u.blueGreen && u.deployments == [d, e] && d.live && !e.live
    requires u.ready == Some(Ready(false, u.generation, false)) && u.selector.Some?
    requires u.rolledOut == Some(RolledOut(WaitingForChange, u.generation))
    requires u.admin == u.selector && u.ingress == u.selector
    ensures Pass(u, Plain(uuid, false).a) == u
  {
    var a := Plain(uuid, false).a;
    ListedTwo(d, e);
    assert ShouldDelegate(u);
    PassIs(u, a);
    hide Pass, Live, Previews, Advance, ShouldDelegate;
  }

  /** And then it comes to rest: two undisturbed passes after a promotion there is a new preview, scaled down,
      Ready has caught up with the generation, the rollout waits for a change, and no undisturbed pass
      changes anything any more. */
  lemma {:induction false} PromotionSettles(s: State, d: Deployment, uuid: nat, later: nat)
    requires s.blueGreen && PromotedTo(s, d)
    ensures var u := Passes(s, uuid, 2);
      && u.deployments == [d.(live := true), Deployment(s.clock, uuid, false, true, 0, 0, 0)]
      && u.preview == Some(uuid) && u.selector == u.admin == u.ingress == Some(d.selector)
      && u.ready == Some(Ready(false, s.generation, false))
      && u.rolledOut == Some(RolledOut(WaitingForChange, s.generation))
      && Pass(u, Plain(later, false).a) == u
  {
    var t := Pass(s, Plain(uuid, false).a);
    PassAfterPromotion(s, d, uuid);
    var live, staged := d.(live := true), Deployment(s.clock, uuid, false, true, 0, 0, 0);
    hide Pass;
    assert t.deployments == [live, staged];
    SecondPassAfterPromotion(t, live, staged, uuid);
    var u := Pass(t, Plain(uuid, false).a);
    assert Passes(u, uuid, 0) == u && Passes(t, uuid, 1) == u;
    WaitingPass(u, live, staged, later);
  }

  // ---------------------------------------------------------------- an edit of the spec

  /** The spec is edited, and a pass prepares the preview. */
  function Edited(s: State, strategy: Strategy, uuid: nat): State {
    Pass(s.(blueGreen := true, strategy := strategy, generation := s.generation + 1), Plain(uuid, false).a)
  }

  lemma {:induction false} RescalingPass(t: State, uuid: nat)
    requires Inv(t) && t.blueGreen && HasPreview(t) && t.deployments[1].scaledDown
    requires t.ready.Some? && t.ready.value.observed < t.generation && !Current(t)
    ensures var u := Pass(t, Plain(uuid, false).a);
      && u.deployments == [t.deployments[0], t.deployments[1].(scaledDown := false)]
      && u == t.(deployments := u.deployments, ready := u.ready, rolledOut := u.rolledOut)
  {
    var a := Plain(uuid, false).a;
    PassIs(t, a);
    TwoOf(t);
    hide Inv, Pass, Live, Previews, Advance, Judge, Rollout, Delegate;
    AdvanceIs(t, uuid);
    var w := LiveReady(t, false);
    JudgeIs(w, uuid);
    RolloutRescales(Noting(w, Progressing, true), uuid);
  }

  lemma {:induction false} TwoOf(t: State)
    requires Inv(t) && HasPreview(t)
    ensures t.preview.Some? && t.deployments[0] != t.deployments[1] && |Live(t.deployments)| == 1
    ensures Previews(t.deployments) == [t.deployments[1]]
  {
    InvLists(t);
  }

  lemma {:induction false} RolloutRescales(v: State, uuid: nat)
    requires |v.deployments| == 2 && v.deployments[0] != v.deployments[1]
    requires Previews(v.deployments) == [v.deployments[1]] && v.deployments[1].scaledDown
    requires v.preview.Some? && v.ready.Some? && Current(v) && v.ready.value.observed != v.generation
    ensures Rollout(v, Plain(uuid, false).a) ==
      v.(deployments := [v.deployments[0], v.deployments[1].(scaledDown := false)])
  {
    var ds := v.deployments;
    assert Updated(ds, ds[1], ds[1].(scaledDown := false)) == [ds[0], ds[1].(scaledDown := false)];
    hide Previews, Await, Updated;
  }

  lemma {:induction false} EditInv(s: State, strategy: Strategy)
    requires Inv(s) && s.blueGreen && s.deployments != []
    ensures var t := s.(blueGreen := true, strategy := strategy, generation := s.generation + 1);
      && Inv(t) && t.ready.Some? && t.ready.value.observed < t.generation && !Current(t)
      && (t.rolledOut.Some? ==> t.rolledOut.value.observed < t.generation)
  {
    StepInv(s, SpecChanges(true, strategy));
    hide Shape, Drawn, PreviewMatches, Served, Step;
    assert Step(s, SpecChanges(true, strategy)) ==
           s.(blueGreen := true, strategy := strategy, generation := s.generation + 1) by {
      EditStep(s, strategy);
    }
  }

  lemma {:induction false} EditStep(s: State, strategy: Strategy)
    ensures Step(s, SpecChanges(true, strategy)) ==
            s.(blueGreen := true, strategy := strategy, generation := s.generation + 1)
  {
    hide Pass;
  }

  /** A spec newer than both conditions. */
  predicate JustEdited(t: State) {
    && t.blueGreen && t.deployments != [] && !TwoLive(t) && !Staged(t)
    && t.ready.Some? && t.ready.value.observed < t.generation
    && (t.rolledOut.Some? ==> t.rolledOut.value.observed < t.generation)
  }

  /** There is a preview Deployment that is not scaled down, beside the old live one. */
  predicate StagedFrom(t: State, u: State, uuid: nat) {
    && u.blueGreen && Staged(u) && t.deployments != [] && u.deployments[0] == t.deployments[0] && SameSpec(t, u)
    && u.promoteWhenReady == t.promoteWhenReady && u.used <= t.used + {uuid}
  }

  lemma {:induction false} NotDelegated(t: State)
    requires JustEdited(t)
    ensures !ShouldDelegate(t) && !Current(t)
  {
  }

  lemma {:induction false} CreatedStages(t: State, uuid: nat)
    requires Inv(t) && JustEdited(t) && |t.deployments| == 1
    ensures StagedFrom(t, Pass(t, Plain(uuid, false).a), uuid)
  {
    var a := Plain(uuid, false).a;
    OneLive(t);
    NotDelegated(t);
    PassIs(t, a);
    AdvanceCreates(t, uuid);
    hide Inv, Pass, Advance, Live, Previews, Delegate, ShouldDelegate;
    assert SameSpec(t, Pass(t, a));
  }

  lemma {:induction false} RescaledStages(t: State, uuid: nat)
    requires Inv(t) && JustEdited(t) && |t.deployments| == 2
    ensures StagedFrom(t, Pass(t, Plain(uuid, false).a), uuid)
  {
    NotDelegated(t);
    RescalingPass(t, uuid);
    hide Inv, Pass, ShouldDelegate;
  }

  /** The pass after an edit leaves a preview Deployment that is not scaled down. */
  lemma {:induction false} EditedStages(s: State, strategy: Strategy, uuid: nat)
    requires Inv(s) && s.blueGreen && s.deployments != [] && !TwoLive(s) && !Staged(s)
    requires Enabled(s, Plain(uuid, false))
    ensures var u := Edited(s, strategy, uuid);
      && Inv(u) && StagedFrom(s.(blueGreen := true, strategy := strategy, generation := s.generation + 1), u, uuid)
  {
    hide Pass, Inv, StagedFrom, Plain;
    var t := s.(blueGreen := true, strategy := strategy, generation := s.generation + 1);
    EditInv(s, strategy);
    EditEnables(s, strategy, uuid);
    PassInv(t, Plain(uuid, false).a);
    AtMostTwo(s);
    if |s.deployments| == 1 {
      CreatedStages(t, uuid);
    } else {
      RescaledStages(t, uuid);
    }
  }

  lemma {:induction false} AtMostTwo(s: State)
    requires Inv(s)
    ensures |s.deployments| <= 2
  {
  }

  lemma {:induction false} EditEnables(s: State, strategy: Strategy, uuid: nat)
    requires Enabled(s, Plain(uuid, false))
    ensures Enabled(s.(blueGreen := true, strategy := strategy, generation := s.generation + 1),
              Reconciles(Plain(uuid, false).a))
  {
  }

  function Rolled(u: State, n: nat): State
    requires |u.deployments| == 2
  {
    u.(deployments := u.deployments[1 := u.deployments[1].(replicas := n, available := n, ready := n)])
  }

  lemma {:induction false} RolledPromotes(u: State, n: nat)
    requires Inv(u) && u.blueGreen && Staged(u) && n > 0
    requires u.strategy == AutomaticPromotion || (u.strategy == BreakBeforePromotion && u.promoteWhenReady)
    ensures Promoting(Rolled(u, n)) && Rolled(u, n).deployments[1].selector != u.deployments[0].selector
  {
    StepInv(u, StatusChanges(1, n, n, n));
    StagedShape(u);
    hide Inv, Pass;
  }

  lemma {:induction false} StillFresh(t: State, u: State, uuid: nat, n: nat)
    requires (forall x :: uuid <= x < uuid + 4 ==> x !in t.used) && u.used <= t.used + {uuid} && |u.deployments| == 2
    ensures Enabled(t, Plain(uuid, false)) && Enabled(Rolled(u, n), Plain(uuid + 2, false))
  {
  }

  /** An edit is rolled out.  Let a run under the strategy have led to one live Deployment, with no preview
      Deployment or a scaled down one, and let the spec then change to a strategy under which the promotion
      is asked for.  After a pass, the new Deployment's replicas becoming available, and at most four passes,
      around none of which anything goes wrong, that Deployment alone is there, live, and selected by both
      live Services, in place of the old one. */
  lemma {:induction false} EditIsRolledOut(s: State, es: seq<Event>, strategy: Strategy, uuid: nat, n: nat)
    requires Initial(s) && IsRun(s, es) && StaysBlueGreen(es) && n > 0
    requires var t := After(s, es);
      && t.deployments != [] && |Live(t.deployments)| == 1 && !Staged(t)
      && (strategy == AutomaticPromotion || (strategy == BreakBeforePromotion && t.promoteWhenReady))
      && forall x :: uuid <= x < uuid + 4 ==> x !in t.used
    ensures var t := After(s, es);
      && |Edited(t, strategy, uuid).deployments| == 2
      && var u := Rolled(Edited(t, strategy, uuid), n);
      && Following(u) <= 3 && PromotedTo(Passes(u, uuid + 2, Following(u) + 1), u.deployments[1])
      && u.deployments[0] == t.deployments[0] && u.deployments[1].selector != t.deployments[0].selector
  {
    hide Inv, Pass, Edited, PromotedTo, Live, Promoting, IsRun, Passes;
    InitialInv(s);
    RunInv(s, es);
    var t := After(s, es);
    TwoLiveStops(t);
    assert Enabled(t, Plain(uuid, false));
    EditedStages(t, strategy, uuid);
    var u := Edited(t, strategy, uuid);
    RolledPromotes(u, n);
    StillFresh(t, u, uuid, n);
    PromotionCompletes(Rolled(u, n), uuid + 2);
  }
}
