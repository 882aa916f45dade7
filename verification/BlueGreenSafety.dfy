/**
 What every run of the promotion keeps while the strategy stays BlueGreen: what the live Services may
 select, when Deployments may go, and that a live Service is never left without a Deployment.
 */
module BlueGreenSafety {
  import opened Wrappers
  import opened BlueGreen

  predicate Serves(ds: seq<Deployment>, x: Option<nat>) {
    x.Some? && exists i :: 0 <= i < |ds| && ds[i].selector == x.value
  }

  predicate HasPreview(s: State) {
    |s.deployments| == 2 && !s.deployments[1].live
  }

  predicate TwoLive(s: State) {
    |s.deployments| == 2 && s.deployments[1].live
  }

  /** At most two Deployments, in the order of creation; the older one is live. */
  predicate Shape(s: State) {
    var ds := s.deployments;
    && |ds| <= 2 && (ds != [] ==> ds[0].live && ds[0].created < s.clock)
    && (|ds| == 2 ==> ds[0].created < ds[1].created < s.clock)
  }

  predicate Known(s: State, x: Option<nat>) {
    x.Some? ==> x.value in s.used
  }

  predicate Drawn(s: State) {
    && Known(s, s.selector) && Known(s, s.preview) && Known(s, s.admin) && Known(s, s.ingress)
    && forall i :: 0 <= i < |s.deployments| ==> s.deployments[i].selector in s.used
  }

  /** The preview Deployment carries the preview selector, the older live one does not. */
  predicate PreviewMatches(s: State) {
    && (HasPreview(s) ==> s.preview == Some(s.deployments[1].selector))
    && (s.deployments != [] && s.preview.Some? ==> s.preview != Some(s.deployments[0].selector))
    && (s.deployments == [] && s.preview.Some? ==> s.selector != s.preview)
  }

  /** What is selected exists. */
  predicate Served(s: State) {
    && (s.selector.None? ==> s.admin.None? && s.ingress.None? && s.deployments == [])
    && (s.deployments != [] ==>
           Serves(s.deployments, s.selector) && Serves(s.deployments, s.admin) && Serves(s.deployments, s.ingress))
  }

  /** The live selector and both live Services are at `x`. */
  predicate Propagated(s: State, x: nat) {
    s.selector == Some(x) && s.admin == Some(x) && s.ingress == Some(x)
  }

  /** Why the plain controller is never asked while two Deployments are live: a preview that may be
      promoted, and all that follows from promoting it, belongs to a generation newer than Ready. The
      second live Deployment is the one the Services select. */
  predicate Conditions(s: State) {
    && (s.ready.Some? ==> s.ready.value.observed <= s.generation)
    && (s.rolledOut.Some? ==> s.rolledOut.value.observed <= s.generation)
    && (s.ready.None? ==> s.deployments == [] && s.preview.None?)
    && (s.deployments == [] ==>
          (s.ready.Some? ==> s.ready.value.isFalse) && (s.rolledOut.Some? ==> !s.rolledOut.value.reason.PromotionDone?))
    && (HasPreview(s) && !s.deployments[1].scaledDown ==> s.ready.Some? && s.ready.value.observed < s.generation)
    && (s.rolledOut.Some? && s.rolledOut.value.reason.PromotionDone? && HasPreview(s) ==> s.deployments[1].scaledDown)
    && (TwoLive(s) ==> && s.ready.Some? && s.ready.value.observed < s.generation
                       && s.rolledOut.Some? && !s.rolledOut.value.reason.WaitingForChange?)
    && (TwoLive(s) ==>
          && Propagated(s, s.deployments[1].selector)
          && s.deployments[0].selector != s.deployments[1].selector)
  }

  predicate Inv(s: State) {
    Shape(s) && Drawn(s) && PreviewMatches(s) && Served(s) && Conditions(s)
  }

  // ---------------------------------------------------------------- lists of Deployments

  lemma {:induction false} Lists(s: State)
    requires Shape(s)
    ensures Live(s.deployments) == if HasPreview(s) then s.deployments[..1] else s.deployments
    ensures Previews(s.deployments) == if HasPreview(s) then [s.deployments[1]] else []
  {
    var ds := s.deployments;
    if |ds| == 2 {
      assert ds[..1][..0] == [] && ds == ds[..1] + [ds[1]];
      assert Live(ds[..1]) == ds[..1] && Previews(ds[..1]) == [];
    } else if |ds| == 1 {
      assert ds[..0] == [] && ds == [ds[0]];
    }
  }

  lemma {:induction false} InvLists(s: State)
    requires Inv(s)
    ensures Live(s.deployments) == if HasPreview(s) then s.deployments[..1] else s.deployments
    ensures Previews(s.deployments) == if HasPreview(s) then [s.deployments[1]] else []
  {
    Lists(s);
  }

  lemma {:induction false} WithSelectorOf(ds: seq<Deployment>, x: nat)
    ensures forall d :: d in WithSelector(ds, x) <==> d in ds && d.selector == x
  {
    if ds != [] {
      WithSelectorOf(ds[..|ds| - 1], x);
      assert forall d :: d in ds <==> d in ds[..|ds| - 1] || d == ds[|ds| - 1];
    }
  }

  /** Reducing two live Deployments keeps the newer one, or both when the deletion fails. */
  lemma {:induction false} ReducedTwo(ds: seq<Deployment>, n: nat)
    requires |ds| == 2 && ds[0].live && ds[1].live && ds[0] != ds[1]
    ensures Reduced(ds, n) == if n == 0 then ds else [ds[1]]
  {
    assert ds[..1][..0] == [] && ds == ds[..1] + [ds[1]];
    assert Live(ds[..1]) == ds[..1] && Live(ds) == ds;
    if n == 0 {
      WithoutNone(ds);
      assert ds[..0] == [];
    } else {
      assert Without(ds[..1], ds[..1]) == [];
      assert ds[1] !in ds[..1];
    }
  }

  // ---------------------------------------------------------------- steps

  lemma {:induction false} InitialInv(s: State)
    requires Initial(s)
    ensures Inv(s)
  {
  }

  /** Changing only what the selection does not depend on keeps it served. */
  lemma {:induction false} StillServed(t: State, u: State)
    requires Served(t) && t.deployments != [] && u.selector == t.selector && u.admin == t.admin
        && u.ingress == t.ingress
    requires |t.deployments| <= |u.deployments|
    requires forall i :: 0 <= i < |t.deployments| ==> u.deployments[i].selector == t.deployments[i].selector
    ensures Served(u)
  {
    forall x | Serves(t.deployments, x) ensures Serves(u.deployments, x) {
      var i :| 0 <= i < |t.deployments| && t.deployments[i].selector == x.value;
      assert u.deployments[i].selector == x.value;
    }
  }

  lemma {:induction false} LiveDeploymentInv(t: State, d: DelegateAround)
    requires Inv(t) && t.ready.Some? && t.selector.Some? && t.admin == t.selector && t.ingress == t.selector
    requires !TwoLive(t) && !(HasPreview(t) && !t.deployments[1].scaledDown)
    ensures Inv(LiveDeployment(t, d))
  {
    hide Live, Previews, Without, Kept;
    Lists(t);
    if t.deployments == [] {
      var u := LiveDeployment(t, d);
      assert u.deployments[0].selector == t.selector.value;
      assert Serves(u.deployments, t.selector);
    }
  }

  lemma {:induction false} InitSelectorInv(s: State, uuid: nat)
    requires Inv(s) && s.selector.None? && uuid !in s.used
    ensures Inv(s.(selector := Some(uuid), used := s.used + {uuid}))
  {
  }

  lemma {:induction false} ServiceInv(t: State)
    requires Inv(t) && t.selector.Some?
    ensures Inv(t.(admin := t.selector)) && Inv(t.(ingress := t.selector))
  {
  }

  /** The plain controller, when it is asked with at most one live Deployment and no preview that may
      be promoted, or when a live Service still has to follow. */
  lemma {:induction false} DelegateInv(s: State, d: DelegateAround)
    requires Inv(s) && d.uuid !in s.used
    requires (!TwoLive(s) && !(HasPreview(s) && !s.deployments[1].scaledDown))
             || (s.selector.Some? && (s.admin != s.selector || s.ingress != s.selector))
    ensures Inv(Delegate(s, d))
  {
    if s.ready.None? {
    } else if s.selector.None? && d.initFails {
    } else {
      if s.selector.None? {
        InitSelectorInv(s, d.uuid);
      }
      var t := if s.selector.None? then s.(selector := Some(d.uuid), used := s.used + {d.uuid}) else s;
      ServiceInv(t);
      hide Shape, Drawn, PreviewMatches, Served, Conditions, LiveDeployment;
      if !d.stopsFirst && t.admin == t.selector && t.ingress == t.selector && !d.stopsNext && !d.deployFails {
        LiveDeploymentInv(t, d);
      }
    }
  }

  /** The guard of the delegation and two live Deployments exclude each other, and so do the guard and
      a preview that may be promoted. */
  lemma {:induction false} NeverDelegatesDuringPromotion(s: State)
    requires Inv(s) && ShouldDelegate(s)
    ensures !TwoLive(s) && !(HasPreview(s) && !s.deployments[1].scaledDown)
  {
  }

  lemma {:induction false} NotingInv(t: State, reason: Reason, recorded: bool)
    requires Inv(t) && !(reason.PromotionDone?
        && (t.deployments == [] || (HasPreview(t) && !t.deployments[1].scaledDown)))
    requires reason.WaitingForChange? ==> !TwoLive(t)
    ensures Inv(Noting(t, reason, recorded))
  {
  }

  function WithPreview(t: State, down: bool): State
    requires t.preview.Some?
  {
    t.(deployments := t.deployments + [Deployment(t.clock, t.preview.value, false, down, 0, 0, 0)],
        clock := t.clock + 1)
  }

  lemma {:induction false} NewPreviewInv(t: State, down: bool)
    requires Inv(t) && t.preview.Some? && |t.deployments| == 1 && t.ready.Some?
    requires !down ==> t.ready.value.observed < t.generation
    requires t.rolledOut.Some? && t.rolledOut.value.reason.PromotionDone? ==> down
    ensures Inv(WithPreview(t, down))
  {
    var u := WithPreview(t, down);
    assert u.deployments[0] == t.deployments[0] && u.deployments[1].selector == t.preview.value;
    StillServed(t, u);
  }

  lemma {:induction false} RescaleInv(t: State, down: bool)
    requires Inv(t) && HasPreview(t) && t.ready.Some?
    requires !down ==> t.ready.value.observed < t.generation
    requires t.rolledOut.Some? && t.rolledOut.value.reason.PromotionDone? ==> down
    ensures var d := t.deployments[1]; Inv(t.(deployments := Updated(t.deployments, d, d.(scaledDown := down))))
  {
    var d := t.deployments[1];
    var u := t.(deployments := Updated(t.deployments, d, d.(scaledDown := down)));
    assert u.deployments[0] == t.deployments[0] && u.deployments[1] == d.(scaledDown := down);
    StillServed(t, u);
  }

  lemma {:induction false} OverrideInv(t: State)
    requires Inv(t) && HasPreview(t)
    ensures Inv(t.(selector := t.preview))
  {
    assert t.deployments[1].selector == t.preview.value;
    assert Serves(t.deployments, t.preview);
  }

  /** The Deployment that gets the live label is the preview Deployment. */
  lemma {:induction false} PickedIsPreview(t: State, k: nat)
    requires Inv(t) && HasPreview(t)
    ensures var matching := WithSelector(t.deployments, t.preview.value);
      matching != [] && matching[if k < |matching| then k else 0] == t.deployments[1]
  {
    var matching := WithSelector(t.deployments, t.preview.value);
    WithSelectorOf(t.deployments, t.preview.value);
    assert t.deployments[1] in t.deployments;
    assert t.deployments[1] in matching;
    assert matching[if k < |matching| then k else 0] in matching;
  }

  /** The states that follow the label: with the preview selector still set, and cleared. */
  lemma {:induction false} LabelInv(t: State)
    requires Inv(t) && HasPreview(t) && !t.deployments[1].scaledDown && t.rolledOut.Some?
    requires !t.rolledOut.value.reason.WaitingForChange? && Propagated(t, t.preview.value)
    ensures var ds := Updated(t.deployments, t.deployments[1], t.deployments[1].(live := true));
      && ds == [t.deployments[0], t.deployments[1].(live := true)]
      && Inv(t.(deployments := ds)) && Inv(t.(deployments := ds, preview := None))
  {
    var ds := Updated(t.deployments, t.deployments[1], t.deployments[1].(live := true));
    assert ds[0] == t.deployments[0];
    StillServed(t, t.(deployments := ds));
    StillServed(t, t.(deployments := ds, preview := None));
  }

  lemma {:induction false} ReduceInv(v: State, n: nat)
    requires Inv(v) && TwoLive(v) && v.preview.None?
    ensures Inv(v.(promoteWhenReady := false, deployments := Reduced(v.deployments, n)))
  {
    ReducedTwo(v.deployments, n);
    var ds := Reduced(v.deployments, n);
    assert ds[|ds| - 1].selector == v.deployments[1].selector;
    assert Serves(ds, v.selector);
  }

  lemma {:induction false} FinishInv(t: State, a: Around)
    requires Inv(t) && HasPreview(t) && !t.deployments[1].scaledDown && Propagated(t, t.preview.value)
    requires t.rolledOut.Some? && !t.rolledOut.value.reason.WaitingForChange?
    ensures Inv(Finish(t, a))
  {
    PickedIsPreview(t, a.pick);
    LabelInv(t);
    NotingInv(t, PromotionFailed, a.records);
    var ds := Updated(t.deployments, t.deployments[1], t.deployments[1].(live := true));
    var u := t.(deployments := ds, preview := None);
    NotingInv(u, PromotionDone, true);
    if !a.rolledOutFails && !a.resetFails {
      ReduceInv(Noting(u, PromotionDone, true), a.deletions);
    }
  }

  lemma {:induction false} PromoteInv(t: State, a: Around)
    requires Inv(t) && HasPreview(t) && !t.deployments[1].scaledDown && t.preview.Some? && a.delegate.uuid !in t.used
    requires t.rolledOut.Some? && !t.rolledOut.value.reason.WaitingForChange?
    ensures Inv(Promote(t, a))
  {
    NotingInv(t, PromotionFailed, a.records);
    if t.selector != t.preview {
      OverrideInv(t);
    } else if !a.listFails {
      if t.ingress != t.preview || t.admin != t.preview {
        DelegateInv(t, a.delegate);
      } else {
        FinishInv(t, a);
      }
    }
  }

  /** A preview Deployment that is not scaled down, waited for. */
  predicate Rolling(t: State) {
    HasPreview(t) && !t.deployments[1].scaledDown && t.preview.Some? && t.rolledOut.Some?
        && !t.rolledOut.value.reason.PromotionDone?
  }

  lemma {:induction false} RollingReason(t: State)
    requires Inv(t) && HasPreview(t) && !t.deployments[1].scaledDown && t.preview.Some? && t.rolledOut.Some?
    ensures Rolling(t)
  {
  }

  lemma {:induction false} BeginInv(t: State, a: Around)
    requires Inv(t) && Rolling(t) && a.delegate.uuid !in t.used
    ensures Inv(Begin(t, a))
  {
    hide Inv, Promote;
    NotingInv(t, PromotionInProgress, true);
    if t.rolledOut.value.reason.PromotionFailed? {
      PromoteInv(t, a);
    } else if a.records {
      PromoteInv(Noting(t, PromotionInProgress, true), a);
    }
  }

  lemma {:induction false} AwaitInv(t: State, a: Around)
    requires Inv(t) && HasPreview(t) && t.preview.Some? && t.rolledOut.Some? && a.delegate.uuid !in t.used
    ensures Inv(Await(t, t.deployments[1], a))
  {
    NotingInv(t, WaitingForChange, a.records);
    if !t.deployments[1].scaledDown {
      RollingReason(t);
      hide Inv, Begin;
      NotingInv(t, Progressing, a.records);
      NotingInv(t, AwaitingPromotion, a.records);
      BeginInv(t, a);
    }
  }

  lemma {:induction false} RolloutInv(t: State, a: Around)
    requires Inv(t) && t.preview.Some? && t.ready.Some? && t.rolledOut.Some? && a.delegate.uuid !in t.used
    requires t.deployments != [] && !TwoLive(t) && t.rolledOut.value.observed == t.generation
    requires t.rolledOut.value.reason.PromotionDone? ==> t.ready.value.observed == t.generation
    ensures Inv(Rollout(t, a))
  {
    hide Inv, Live, Previews, Await, Updated;
    InvLists(t);
    var down := t.ready.value.observed == t.rolledOut.value.observed;
    NotUpToDate(t);
    NotingInv(t, RolloutFailed, a.records);
    if HasPreview(t) {
      RescaleInv(t, down);
      AwaitInv(t, a);
    } else {
      NewPreviewInv(t, down);
    }
  }

  lemma {:induction false} NotUpToDate(t: State)
    requires Inv(t) && t.ready.Some? && t.rolledOut.Some? && t.rolledOut.value.observed == t.generation
    ensures t.ready.value.observed != t.rolledOut.value.observed ==> t.ready.value.observed < t.generation
    ensures |t.deployments| <= 2
  {
  }

  lemma {:induction false} PrepareInv(u: State, a: Around)
    requires Inv(u) && u.preview.Some? && u.ready.Some? && u.rolledOut.Some? && a.delegate.uuid !in u.used
    requires !TwoLive(u) && u.rolledOut.value.observed == u.generation
    requires u.rolledOut.value.reason.PromotionDone? ==> u.ready.value.observed == u.generation
    ensures Inv(Prepare(u, a))
  {
    Lists(u);
    NotingInv(u, RolloutFailed, a.records);
    if u.deployments != [] {
      RolloutInv(u, a);
    }
  }

  /** The Ready condition may be rewritten at its generation, and at the current one once the
      promotion is done. */
  lemma {:induction false} ReadyInv(s: State, isFalse: bool)
    requires Inv(s) && s.ready.Some?
    ensures Inv(LiveReady(s, isFalse))
    ensures !TwoLive(s) && s.rolledOut.Some? && s.rolledOut.value.reason.PromotionDone? ==>
      Inv(s.(ready := Some(Ready(isFalse, s.generation, false))))
  {
  }

  lemma {:induction false} InitPreviewInv(s: State, uuid: nat)
    requires Inv(s) && s.ready.Some? && s.preview.None? && uuid !in s.used
    ensures Inv(s.(preview := Some(uuid), used := s.used + {uuid}))
  {
  }

  lemma {:induction false} JudgeInv(u: State, a: Around)
    requires Inv(u) && u.preview.Some? && u.ready.Some? && a.delegate.uuid !in u.used && !TwoLive(u)
    ensures Inv(Judge(u, a))
  {
    hide Inv, Prepare;
    ReadyInv(u, a.readyFalse);
    NotingInv(u, Progressing, true);
    if u.rolledOut == Some(RolledOut(PromotionDone, u.generation)) {
      PrepareInv(u.(ready := Some(Ready(a.readyFalse, u.generation, false))), a);
    } else if u.rolledOut.Some? && u.rolledOut.value.observed == u.generation {
      PrepareInv(u, a);
    } else {
      PrepareInv(Noting(u, Progressing, true), a);
    }
  }

  lemma {:induction false} AdvanceInv(s: State, a: Around)
    requires Inv(s) && s.ready.Some? && a.uuid !in s.used && a.delegate.uuid !in s.used && a.uuid != a.delegate.uuid
    ensures Inv(Advance(s, a))
  {
    TwoLiveStops(s);
    hide Inv, Live, Judge;
    ReadyInv(s, a.liveReadyFalse);
    var t := LiveReady(s, a.liveReadyFalse);
    if t.preview.None? {
      InitPreviewInv(t, a.uuid);
    }
    if |Live(s.deployments)| <= 1 && !(t.preview.None? && a.initFails) {
      JudgeInv(if t.preview.None? then t.(preview := Some(a.uuid), used := t.used + {a.uuid}) else t, a);
    }
  }

  lemma {:induction false} TwoLiveStops(s: State)
    requires Inv(s)
    ensures |Live(s.deployments)| > 1 <==> TwoLive(s)
  {
    Lists(s);
  }

  lemma {:induction false} PassInv(s: State, a: Around)
    requires Inv(s) && s.blueGreen && Enabled(s, Reconciles(a))
    ensures Inv(Pass(s, a))
  {
    hide Inv, Advance, Delegate;
    if ShouldDelegate(s) {
      NeverDelegatesDuringPromotion(s);
      DelegateInv(s, a.delegate);
    } else {
      AdvanceInv(s, a);
    }
  }

  lemma {:induction false} StepInv(s: State, e: Event)
    requires Inv(s) && s.blueGreen && Enabled(s, e)
    ensures Inv(Step(s, e))
  {
    match e
    case Reconciles(a) => PassInv(s, a);
    case StatusChanges(_, _, _, _) => StillServed(s, Step(s, e));
    case SpecChanges(_, _) =>
    case Annotates(_) =>
  }

  function After(s: State, es: seq<Event>): State
    requires IsRun(s, es)
    decreases |es|
  {
    if es == [] then s else After(Step(s, es[0]), es[1..])
  }

  lemma {:induction false} StepStays(s: State, e: Event)
    requires s.blueGreen && Enabled(s, e) && (e.SpecChanges? ==> e.blueGreen)
    ensures Step(s, e).blueGreen
  {
    hide Pass;
  }

  lemma {:induction false} RunInv(s: State, es: seq<Event>)
    requires Inv(s) && s.blueGreen && IsRun(s, es) && StaysBlueGreen(es)
    ensures Inv(After(s, es)) && After(s, es).blueGreen
    decreases |es|
  {
    if es != [] {
      assert es[0] in es && forall e :: e in es[1..] ==> e in es;
      StepInv(s, es[0]);
      StepStays(s, es[0]);
      RunInv(Step(s, es[0]), es[1..]);
    }
  }

  // ---------------------------------------------------------------- what one pass may change

  /** The preview Deployment is fully available and the strategy allows its promotion. */
  predicate Promotable(s: State) {
    && HasPreview(s) && s.preview == Some(s.deployments[1].selector)
    && var d := s.deployments[1];
    && d.replicas > 0 && d.available == d.replicas && d.ready == d.replicas
    && (s.strategy == AutomaticPromotion || (s.strategy == BreakBeforePromotion && s.promoteWhenReady))
  }

  predicate Newest(ds: seq<Deployment>, x: nat) {
    ds != [] && ds[|ds| - 1].selector == x && ds[|ds| - 1].live
  }

  /** The promotion of `t.preview` was completed: it began with both live Services selecting the
      preview, and ends with the promoted Deployment live and newest; unless the old one is still
      there too, the approval is gone. */
  predicate Completed(t: State, u: State) {
    && t.preview.Some? && u.preview.None? && Propagated(t, t.preview.value) && Propagated(u, t.preview.value)
    && Newest(u.deployments, t.preview.value) && (TwoLive(u) || !u.promoteWhenReady)
  }

  predicate Effect(t: State, u: State) {
    && (u.promoteWhenReady ==> t.promoteWhenReady)
    && ((t.preview.Some? && u.preview != t.preview) || |u.deployments| < |t.deployments| ==> Completed(t, u))
    && (t.selector.Some? && u.selector != t.selector ==> u.selector == t.preview && Promotable(t))
    && (u.admin == t.admin || u.admin == u.selector) && (u.ingress == t.ingress || u.ingress == u.selector)
  }

  predicate SameButConditions(t: State, v: State) {
    v == t.(ready := v.ready, rolledOut := v.rolledOut)
  }

  lemma {:induction false} EffectVia(t: State, v: State, u: State)
    requires SameButConditions(t, v) && Effect(v, u)
    ensures Effect(t, u)
  {
  }

  lemma {:induction false} QuietEffect(t: State, u: State)
    requires u.selector == t.selector && u.preview == t.preview && u.admin == t.admin && u.ingress == t.ingress
    requires u.promoteWhenReady == t.promoteWhenReady && |u.deployments| >= |t.deployments|
    ensures Effect(t, u)
  {
  }

  lemma {:induction false} LiveDeploymentAdds(t: State, d: DelegateAround)
    requires Shape(t) && !TwoLive(t)
    ensures var u := LiveDeployment(t, d);
      |u.deployments| >= |t.deployments| && u == t.(deployments := u.deployments, ready := u.ready, clock := u.clock)
  {
    Lists(t);
  }

  lemma {:induction false} DelegateEffect(s: State, d: DelegateAround)
    requires Inv(s)
    requires !TwoLive(s) || (s.selector.Some? && (s.admin != s.selector || s.ingress != s.selector))
    ensures Effect(s, Delegate(s, d))
  {
    hide PreviewMatches, Served, Conditions, LiveDeployment, Completed, Promotable, Drawn;
    var t := if s.selector.None? then s.(selector := Some(d.uuid), used := s.used + {d.uuid}) else s;
    if t.admin == t.selector && t.ingress == t.selector {
      LiveDeploymentAdds(t, d);
    }
  }

  lemma {:induction false} FinishEffect(t: State, a: Around)
    requires Inv(t) && HasPreview(t) && !t.deployments[1].scaledDown && Propagated(t, t.preview.value)
    requires t.rolledOut.Some? && !t.rolledOut.value.reason.WaitingForChange?
    ensures Effect(t, Finish(t, a))
  {
    hide Live, Previews, Without, Reduced, WithSelector, Updated, Served, Conditions, Drawn;
    PickedIsPreview(t, a.pick);
    LabelInv(t);
    var ds := Updated(t.deployments, t.deployments[1], t.deployments[1].(live := true));
    ReducedTwo(ds, a.deletions);
  }

  lemma {:induction false} PromoteEffect(t: State, a: Around)
    requires Inv(t) && Promotable(t) && !t.deployments[1].scaledDown
    requires t.rolledOut.Some? && !t.rolledOut.value.reason.WaitingForChange?
    ensures Effect(t, Promote(t, a))
  {
    hide Inv, Finish, Delegate;
    if t.selector == t.preview && !a.listFails {
      if t.ingress != t.preview || t.admin != t.preview {
        DelegateEffect(t, a.delegate);
      } else {
        FinishEffect(t, a);
      }
    }
  }

  lemma {:induction false} BeginEffect(t: State, a: Around)
    requires Inv(t) && Rolling(t) && Promotable(t)
    ensures Effect(t, Begin(t, a))
  {
    hide Inv, Promote;
    var v := Noting(t, PromotionInProgress, true);
    NotingInv(t, PromotionInProgress, true);
    if t.rolledOut.value.reason.PromotionFailed? {
      PromoteEffect(t, a);
    } else if a.records {
      PromoteEffect(v, a);
      EffectVia(t, v, Promote(v, a));
    }
  }

  lemma {:induction false} AwaitEffect(t: State, a: Around)
    requires Inv(t) && HasPreview(t) && t.preview.Some? && t.rolledOut.Some?
    ensures Effect(t, Await(t, t.deployments[1], a))
  {
    if !t.deployments[1].scaledDown {
      RollingReason(t);
      PreviewSelector(t);
      hide Inv, Begin;
      if Available(t.deployments[1]) && Allowed(t) {
        BeginEffect(t, a);
      }
    }
  }

  lemma {:induction false} PreviewSelector(t: State)
    requires Inv(t) && HasPreview(t)
    ensures t.preview == Some(t.deployments[1].selector)
  {
  }

  /** Neither creating nor rescaling the preview Deployment has an effect of its own. */
  lemma {:induction false} PreviewWriteEffect(t: State, down: bool)
    requires t.preview.Some?
    ensures Effect(t, WithPreview(t, down))
    ensures HasPreview(t) ==>
        var d := t.deployments[1]; Effect(t, t.(deployments := Updated(t.deployments, d, d.(scaledDown := down))))
  {
  }

  lemma {:induction false} RolloutEffect(t: State, a: Around)
    requires Inv(t) && t.preview.Some? && t.ready.Some? && t.rolledOut.Some? && t.deployments != [] && !TwoLive(t)
    ensures Effect(t, Rollout(t, a))
  {
    hide Drawn, PreviewMatches, Served, Conditions, Live, Previews, Updated, Await, Effect;
    Lists(t);
    PreviewWriteEffect(t, t.ready.value.observed == t.rolledOut.value.observed);
    QuietEffect(t, Noting(t, RolloutFailed, a.records));
    if HasPreview(t) {
      AwaitEffect(t, a);
    }
  }

  lemma {:induction false} PrepareEffect(u: State, a: Around)
    requires Inv(u) && u.preview.Some? && u.ready.Some? && u.rolledOut.Some? && !TwoLive(u)
    ensures Effect(u, Prepare(u, a))
  {
    Lists(u);
    hide Inv, Live, Rollout, Effect;
    QuietEffect(u, Noting(u, RolloutFailed, a.records));
    if u.deployments != [] {
      RolloutEffect(u, a);
    }
  }

  lemma {:induction false} JudgeEffect(u: State, a: Around)
    requires Inv(u) && u.preview.Some? && u.ready.Some? && !TwoLive(u)
    ensures Effect(u, Judge(u, a))
  {
    ReadyInv(u, a.readyFalse);
    NotingInv(u, Progressing, true);
    hide Inv, Prepare, Effect;
    QuietEffect(u, u);
    var v := if u.rolledOut == Some(RolledOut(PromotionDone, u.generation))
        then u.(ready := Some(Ready(a.readyFalse, u.generation, false)))
             else if u.rolledOut.Some? && u.rolledOut.value.observed == u.generation then u
             else Noting(u, Progressing, true);
    PrepareEffect(v, a);
    EffectVia(u, v, Prepare(v, a));
  }

  /** A preview selector that was just drawn is carried by no Deployment and selected by nobody. */
  lemma {:induction false} NewSelectorEffect(t: State, uuid: nat, u: State)
    requires Inv(t) && t.preview.None? && uuid !in t.used
        && Effect(t.(preview := Some(uuid), used := t.used + {uuid}), u)
    ensures Effect(t, u)
  {
  }

  lemma {:induction false} AdvanceEffect(s: State, a: Around)
    requires Inv(s) && s.ready.Some? && a.uuid !in s.used
    ensures Effect(s, Advance(s, a))
  {
    TwoLiveStops(s);
    ReadyInv(s, a.liveReadyFalse);
    hide Inv, Live, Judge;
    var t := LiveReady(s, a.liveReadyFalse);
    if |Live(s.deployments)| <= 1 && !(t.preview.None? && a.initFails) {
      if t.preview.None? {
        InitPreviewInv(t, a.uuid);
        var v := t.(preview := Some(a.uuid), used := t.used + {a.uuid});
        JudgeEffect(v, a);
        NewSelectorEffect(t, a.uuid, Judge(v, a));
        EffectVia(s, t, Judge(v, a));
      } else {
        JudgeEffect(t, a);
        EffectVia(s, t, Judge(t, a));
      }
    }
  }

  lemma {:induction false} PassEffect(s: State, a: Around)
    requires Inv(s) && s.blueGreen && a.uuid !in s.used
    ensures Effect(s, Pass(s, a))
  {
    hide Inv, Advance, Delegate;
    if ShouldDelegate(s) {
      NeverDelegatesDuringPromotion(s);
      DelegateEffect(s, a.delegate);
    } else {
      AdvanceEffect(s, a);
    }
  }

  // ---------------------------------------------------------------- main results

  /** No outage: while the strategy stays BlueGreen, in every run, once a Deployment exists both live
      Services select one that exists. */
  lemma {:induction false} ServicesAlwaysServed(s: State, es: seq<Event>)
    requires Initial(s) && IsRun(s, es) && StaysBlueGreen(es)
    ensures var t := After(s, es);
      t.deployments != [] ==> Serves(t.deployments, t.admin) && Serves(t.deployments, t.ingress)
  {
    InitialInv(s);
    RunInv(s, es);
  }

  /** In every such run the plain controller is never asked while two Deployments are live. */
  lemma {:induction false} NeverReducesByRanking(s: State, es: seq<Event>)
    requires Initial(s) && IsRun(s, es) && StaysBlueGreen(es)
    ensures var t := After(s, es); ShouldDelegate(t) ==> |Live(t.deployments)| <= 1
  {
    InitialInv(s);
    RunInv(s, es);
    var t := After(s, es);
    TwoLiveStops(t);
    if ShouldDelegate(t) {
      NeverDelegatesDuringPromotion(t);
    }
  }

  /** In every such run the preview selector is cleared, and a Deployment deleted, only in a pass that
      began with both live Services selecting the preview; and afterwards the newest Deployment is live
      and is the one they select, so it is the survivor when the other is gone. */
  lemma {:induction false} ClearAndDeleteOnlyAfterPropagation(s: State, es: seq<Event>, e: Event)
    requires Initial(s) && IsRun(s, es) && StaysBlueGreen(es) && Enabled(After(s, es), e)
    ensures var t := After(s, es);
      var u := Step(t, e);
      (t.preview.Some? && u.preview != t.preview) || |u.deployments| < |t.deployments| ==>
        && t.preview.Some? && u.preview.None?
        && Propagated(t, t.preview.value) && Propagated(u, t.preview.value)
        && Newest(u.deployments, t.preview.value)
  {
    InitialInv(s);
    RunInv(s, es);
    hide Inv, Pass;
    if e.Reconciles? {
      PassEffect(After(s, es), e.a);
    }
  }

  /** Some pass of the run set the first selector to `x`, or promoted `x`. */
  predicate Endorsed(s: State, es: seq<Event>, x: nat)
    requires IsRun(s, es)
    decreases |es|
  {
    es != [] && (
      (s.selector != Some(x) && Step(s, es[0]).selector == Some(x)
       && (s.selector.None? || (s.preview == Some(x) && Promotable(s))))
      || Endorsed(Step(s, es[0]), es[1..], x))
  }

  lemma {:induction false} StepEffect(s: State, e: Event)
    requires Inv(s) && s.blueGreen && Enabled(s, e) && (e.Annotates? ==> !e.promoteWhenReady)
    ensures Effect(s, Step(s, e))
  {
    hide Inv, Pass;
    if e.Reconciles? {
      PassEffect(s, e.a);
    }
  }

  lemma {:induction false} SelectorsFollow(s: State, e: Event)
    requires Inv(s) && s.blueGreen && Enabled(s, e)
    ensures var u := Step(s, e);
      && (s.selector.Some? && u.selector != s.selector ==> u.selector == s.preview && Promotable(s))
      && (u.admin == s.admin || u.admin == u.selector) && (u.ingress == s.ingress || u.ingress == u.selector)
  {
    hide Inv, Pass;
    if e.Reconciles? {
      PassEffect(s, e.a);
    }
  }

  lemma {:induction false} SelectedWasEndorsed(s: State, es: seq<Event>, x: nat)
    requires Inv(s) && s.blueGreen && IsRun(s, es) && StaysBlueGreen(es)
    requires s.selector != Some(x) && s.admin != Some(x) && s.ingress != Some(x)
    ensures var t := After(s, es);
      t.selector == Some(x) || t.admin == Some(x) || t.ingress == Some(x) ==> Endorsed(s, es, x)
    decreases |es|
  {
    if es != [] {
      hide Inv, Step, Promotable;
      var t := Step(s, es[0]);
      assert es[0] in es && forall e :: e in es[1..] ==> e in es;
      StepInv(s, es[0]);
      StepStays(s, es[0]);
      SelectorsFollow(s, es[0]);
      if t.selector != Some(x) {
        SelectedWasEndorsed(t, es[1..], x);
      }
    }
  }

  /** In every such run the live Services only ever select the first selector, or one whose
      Deployment was fully available and allowed to be promoted in the pass that made it the live one. */
  lemma {:induction false} ServicesSelectOnlyEndorsed(s: State, es: seq<Event>, x: nat)
    requires Initial(s) && IsRun(s, es) && StaysBlueGreen(es)
    ensures After(s, es).admin == Some(x) || After(s, es).ingress == Some(x) ==> Endorsed(s, es, x)
  {
    InitialInv(s);
    SelectedWasEndorsed(s, es, x);
  }

  // ---------------------------------------------------------------- approvals

  /** The approval at hand, if any, can promote nothing any more. */
  predicate Spent(s: State) {
    (s.preview.Some? && s.selector == s.preview) || TwoLive(s) || !s.promoteWhenReady
  }

  /** Nobody approves again, and promotions keep needing an approval. */
  predicate NoNewApproval(es: seq<Event>) {
    forall e :: e in es ==>
          (e.Annotates? ==> !e.promoteWhenReady) && (e.SpecChanges? ==> e.blueGreen && e.strategy.BreakBeforePromotion?)
  }

  lemma {:induction false} TwoLiveStays(s: State, e: Event)
    requires Inv(s) && s.blueGreen && TwoLive(s) && Enabled(s, e)
    ensures var u := Step(s, e);
      TwoLive(u) && u.selector == s.selector && u.preview == s.preview && u.admin == s.admin && u.ingress == s.ingress
  {
    TwoLiveStops(s);
    if ShouldDelegate(s) {
      NeverDelegatesDuringPromotion(s);
    }
  }

  lemma {:induction false} SpentStays(s: State, e: Event)
    requires Inv(s) && s.blueGreen && s.strategy.BreakBeforePromotion? && s.selector.Some? && Spent(s)
    requires Enabled(s, e) && NoNewApproval([e])
    ensures var u := Step(s, e); u.selector == s.selector && Spent(u) && u.blueGreen && u.strategy.BreakBeforePromotion?
  {
    assert e in [e];
    if TwoLive(s) {
      TwoLiveStays(s, e);
    } else {
      StepEffect(s, e);
    }
    hide Inv, Pass;
    assert e.Reconciles? ==> SameSpec(s, Pass(s, e.a));
  }

  lemma {:induction false} SpentForGood(s: State, es: seq<Event>)
    requires Inv(s) && s.blueGreen && s.strategy.BreakBeforePromotion? && s.selector.Some? && Spent(s)
    requires IsRun(s, es) && NoNewApproval(es)
    ensures After(s, es).selector == s.selector
    decreases |es|
  {
    if es != [] {
      hide Inv, Step, Spent;
      assert es[0] in es && forall e :: e in es[1..] ==> e in es;
      SpentStays(s, es[0]);
      StepInv(s, es[0]);
      SpentForGood(Step(s, es[0]), es[1..]);
    }
  }

  /** Every promotion needs an approval of its own: once `e` has promoted the preview, no later preview
      is promoted before the user sets the annotation again, however many requests fail on the way. */
  lemma {:induction false} ApprovalPromotesOnce(s: State, es: seq<Event>, e: Event, later: seq<Event>)
    requires Initial(s) && IsRun(s, es) && StaysBlueGreen(es) && Enabled(After(s, es), e)
    requires var t := After(s, es);
      t.strategy.BreakBeforePromotion? && e.Reconciles? && t.selector.Some? && Step(t, e).selector != t.selector
    requires IsRun(Step(After(s, es), e), later) && NoNewApproval(later)
    ensures var u := Step(After(s, es), e);
      After(u, later).selector == u.selector == After(s, es).preview
  {
    InitialInv(s);
    RunInv(s, es);
    var t := After(s, es);
    var u := Step(t, e);
    StepInv(t, e);
    StepEffect(t, e);
    hide Inv, Pass;
    assert SameSpec(t, u);
    assert u.preview == t.preview by {
      assert Completed(t, u) ==> t.selector == t.preview;
    }
    SpentForGood(u, later);
  }

  // ---------------------------------------------------------------- a promotion that fails half way

  /** The last steps of a promotion leave two live Deployments exactly when one of its requests fails
      after the label was set. */
  lemma {:induction false} FinishLeavesTwoIff(t: State, a: Around)
    requires Inv(t) && HasPreview(t) && t.preview.Some?
    ensures TwoLive(Finish(t, a)) <==>
      !a.labelFails && (a.clearFails || a.rolledOutFails || a.resetFails || a.deletions == 0)
  {
    PickedIsPreview(t, a.pick);
    var ds := Updated(t.deployments, t.deployments[1], t.deployments[1].(live := true));
    assert ds[0] == t.deployments[0] && ds[1] == t.deployments[1].(live := true);
    ReducedTwo(ds, a.deletions);
  }

  /** And then nothing moves any more while the strategy stays BlueGreen: neither controller deletes
      the old Deployment, and no later preview is rolled out. */
  lemma {:induction false} TwoLiveIsStuck(s: State, es: seq<Event>)
    requires Inv(s) && s.blueGreen && TwoLive(s) && IsRun(s, es) && StaysBlueGreen(es)
    ensures var t := After(s, es);
      TwoLive(t) && t.selector == s.selector && t.preview == s.preview && t.admin == s.admin && t.ingress == s.ingress
    decreases |es|
  {
    if es != [] {
      assert es[0] in es && forall e :: e in es[1..] ==> e in es;
      TwoLiveStays(s, es[0]);
      StepInv(s, es[0]);
      StepStays(s, es[0]);
      hide Inv, Step;
      TwoLiveIsStuck(Step(s, es[0]), es[1..]);
    }
  }

  /** The last steps of a promotion either end with one live Deployment, or a request of theirs failed
      after the label was set; and then both Deployments are there, and every selector is as it was, for
      as long as the strategy stays BlueGreen. */
  lemma {:induction false} FailedFinishIsStuck(t: State, a: Around, later: seq<Event>)
    requires Inv(t) && t.blueGreen && Rolling(t) && !t.rolledOut.value.reason.WaitingForChange?
        && Propagated(t, t.preview.value)
    requires !a.labelFails && IsRun(Finish(t, a), later) && StaysBlueGreen(later)
    ensures var failed := a.clearFails || a.rolledOutFails || a.resetFails || a.deletions == 0;
      && (failed <==> |Finish(t, a).deployments| == 2)
      && (failed ==> TwoLive(After(Finish(t, a), later)) && After(Finish(t, a), later).selector == t.selector)
  {
    FinishLeavesTwoIff(t, a);
    FinishInv(t, a);
    FinishEffect(t, a);
    assert SameSpec(t, Finish(t, a));
    hide Inv, Finish, IsRun, After;
    if TwoLive(Finish(t, a)) {
      TwoLiveIsStuck(Finish(t, a), later);
    }
  }
}
