/**
 Blue/green promotion of a DataPlane: the passes of the blue/green controller and of the plain
 DataPlane controller it delegates to, over the selectors, the live Services and the Deployments.
 Selectors are UUIDs, modelled as numbers; None is the empty string.
 */
module BlueGreen {
  import opened Wrappers

  datatype Strategy = BreakBeforePromotion | AutomaticPromotion | UnknownStrategy

  /** A Deployment of the DataPlane; `created` is its creation time, `live` its state label,
      `scaledDown` says that its spec asks for no replicas; the rest is its status. */
  datatype Deployment = Deployment(created: nat, selector: nat, live: bool, scaledDown: bool, replicas: nat,
      available: nat, ready: nat)

  /** The Ready condition: whether its status is False, the generation it was observed at, and whether
      it gives the missing Deployment as its reason. */
  datatype Ready = Ready(isFalse: bool, observed: nat, noDeployment: bool)

  datatype Reason =
    | Progressing | RolloutFailed | WaitingForChange | AwaitingPromotion
    | PromotionInProgress | PromotionFailed | PromotionDone

  datatype RolledOut = RolledOut(reason: Reason, observed: nat)

  datatype State = State(
    selector: Option<nat>,          // status.selector
    preview: Option<nat>,           // status.rollout.deployment.selector
    admin: Option<nat>,             // what the live Services select; None: no Service yet
    ingress: Option<nat>,
    deployments: seq<Deployment>,   // in the order of their creation
    blueGreen: bool,                // the spec has the BlueGreen rollout strategy
    strategy: Strategy,             // its promotion strategy
    promoteWhenReady: bool,         // the annotation has the value "true"
    generation: nat,
    ready: Option<Ready>,
    rolledOut: Option<RolledOut>,
    clock: nat,
    used: set<nat>)                 // the UUIDs drawn so far

  /** What happens around a pass of the plain controller: the UUID it would draw, the requests that
      fail, the steps that stop it, and the status it finds for the Ready condition. */
  datatype DelegateAround = DelegateAround(
    uuid: nat, readyInitFails: bool, initFails: bool, stopsFirst: bool, adminFails: bool, ingressFails: bool,
    stopsNext: bool, deployFails: bool, stopsLast: bool, readyFalse: bool)

  /** What happens around a pass of the blue/green controller; `records` says whether its writes of
      the RolledOut condition succeed, `updates` whether a preview Deployment whose scale differs
      from the wanted one is updated. */
  datatype Around = Around(
    delegate: DelegateAround, pruneFails: bool, pruneStatusFails: bool,
    stopsAtReadyCheck: bool, liveReadyFalse: bool, uuid: nat, initFails: bool, stopsAtReady: bool, readyFalse: bool,
    stopsEarly: bool, stopsAtDeployment: bool, updates: bool, records: bool, overrideFails: bool, listFails: bool,
    pick: nat, labelFails: bool, clearFails: bool, rolledOutFails: bool, resetFails: bool, deletions: nat)

  // ---------------------------------------------------------------- Deployments

  function Live(ds: seq<Deployment>): seq<Deployment> {
    if ds == [] then [] else Live(ds[..|ds| - 1]) + if ds[|ds| - 1].live then [ds[|ds| - 1]] else []
  }

  function Previews(ds: seq<Deployment>): seq<Deployment> {
    if ds == [] then [] else Previews(ds[..|ds| - 1]) + if ds[|ds| - 1].live then [] else [ds[|ds| - 1]]
  }

  function WithSelector(ds: seq<Deployment>, x: nat): seq<Deployment> {
    if ds == [] then [] else WithSelector(ds[..|ds| - 1], x) + if ds[|ds| - 1].selector == x then [ds[|ds| - 1]] else []
  }

  function Without(ds: seq<Deployment>, gone: seq<Deployment>): seq<Deployment> {
    if ds == [] then [] else Without(ds[..|ds| - 1], gone) + if ds[|ds| - 1] in gone then [] else [ds[|ds| - 1]]
  }

  /** Writes one Deployment. */
  function Updated(ds: seq<Deployment>, d: Deployment, d': Deployment): (r: seq<Deployment>)
    ensures |r| == |ds| && forall k :: 0 <= k < |ds| ==> r[k] == if ds[k] == d then d' else ds[k]
  {
    if ds == [] then []
    else Updated(ds[..|ds| - 1], d, d') + [if ds[|ds| - 1] == d then d' else ds[|ds| - 1]]
  }

  predicate Available(d: Deployment) {
    d.replicas != 0 && d.available == d.replicas && d.ready == d.replicas
  }

  /** How the plain controller ranks Deployments when there is more than one: more available
      replicas, then more ready ones, then the older one. */
  predicate Better(a: Deployment, b: Deployment) {
    if a.available != b.available then a.available > b.available
    else if a.ready != b.ready then a.ready > b.ready
    else a.created < b.created
  }

  function Kept(ds: seq<Deployment>): (d: Deployment)
    requires ds != []
    ensures d in ds && forall e :: e in ds ==> !Better(e, d)
  {
    if |ds| == 1 then ds[0]
    else
      var d := Kept(ds[..|ds| - 1]);
      assert ds == ds[..|ds| - 1] + [ds[|ds| - 1]];
      if Better(ds[|ds| - 1], d) then ds[|ds| - 1] else d
  }

  // ---------------------------------------------------------------- the plain controller

  /** The spec is the user's: no pass changes it. */
  predicate SameSpec(s: State, t: State) {
    t.blueGreen == s.blueGreen && t.strategy == s.strategy && t.generation == s.generation
  }

  function Delegate(s: State, d: DelegateAround): (r: State)
    ensures SameSpec(s, r)
  {
    if s.ready.None? then (if d.readyInitFails then s else s.(ready := Some(Ready(true, s.generation, false))))
    else if s.selector.None? && d.initFails then s
    else
      var t := if s.selector.None? then s.(selector := Some(d.uuid), used := s.used + {d.uuid}) else s;
      if d.stopsFirst then t
      else if t.admin != t.selector then (if d.adminFails then t else t.(admin := t.selector))
      else if t.ingress != t.selector then (if d.ingressFails then t else t.(ingress := t.selector))
      else if d.stopsNext || d.deployFails then t
      else LiveDeployment(t, d)
  }

  /** Creates the live Deployment, reduces several to one, or leaves a single one alone (its selector
      cannot change) and goes on to the Ready condition. */
  function LiveDeployment(t: State, d: DelegateAround): (r: State)
    ensures SameSpec(t, r)
  {
    var live := Live(t.deployments);
    if live == [] then
      t.(deployments := t.deployments + [Deployment(t.clock, t.selector.GetOr(0), true, false, 0, 0, 0)],
          clock := t.clock + 1)
    else if |live| > 1 then t.(deployments := Without(t.deployments, Without(live, [Kept(live)])))
    else if d.stopsLast then t
    else t.(ready := Some(Ready(d.readyFalse, t.generation, false)))
  }

  // ---------------------------------------------------------------- the blue/green controller

  /** shouldDelegateToDataPlaneController. */
  predicate ShouldDelegate(s: State) {
    || (s.ready.Some? && s.rolledOut.Some?
        && s.ready.value.observed == s.rolledOut.value.observed == s.generation
             && s.rolledOut.value.reason.WaitingForChange?)
    || (s.ready.Some? && s.ready.value.isFalse && s.ready.value.observed == s.generation)
    || s.ready.None?
  }

  /** canProceedWithPromotion; an unknown strategy is an error. */
  predicate Allowed(s: State) {
    s.strategy.AutomaticPromotion? || (s.strategy.BreakBeforePromotion? && s.promoteWhenReady)
  }

  /** ensureRolledOutCondition, when the write succeeds. */
  function Noting(t: State, reason: Reason, recorded: bool): State {
    if recorded then t.(rolledOut := Some(RolledOut(reason, t.generation))) else t
  }

  function Pass(s: State, a: Around): (r: State)
    ensures SameSpec(s, r)
  {
    if !s.blueGreen then Withdraw(s, a)
    else if ShouldDelegate(s) then Delegate(s, a.delegate)
    else Advance(s, a)
  }

  /** Without the strategy: the preview is pruned, then the plain controller runs. */
  function Withdraw(s: State, a: Around): (r: State)
    ensures SameSpec(s, r)
  {
    if a.pruneFails then s
    else
      var t := s.(deployments := Live(s.deployments));
      if (t.preview.Some? || t.rolledOut.Some?) && a.pruneStatusFails then t
      else Delegate(t.(preview := None, rolledOut := None), a.delegate)
  }

  /** ensureDataPlaneLiveReadyStatus; it keeps the generation the condition was observed at. */
  function LiveReady(s: State, isFalse: bool): State
    requires s.ready.Some?
  {
    var missing := Live(s.deployments) == [];
    s.(ready := Some(Ready(isFalse || missing, s.ready.value.observed, missing)))
  }

  /** The readiness check stops the pass: for several live Deployments, and for none when there is
      nothing to write about it any more, since it then indexes an empty list. */
  predicate StopsAtReadyCheck(s: State)
    requires s.ready.Some?
  {
    |Live(s.deployments)| > 1 || (Live(s.deployments) == [] && s.ready.value.noDeployment)
  }

  /** The checks before the preview resources. */
  function Advance(s: State, a: Around): (r: State)
    requires s.ready.Some?
    ensures SameSpec(s, r)
  {
    if StopsAtReadyCheck(s) || a.stopsAtReadyCheck then s
    else
      var t := LiveReady(s, a.liveReadyFalse);
      if t.preview.None? && a.initFails then t
      else
        Judge(if t.preview.None? then t.(preview := Some(a.uuid), used := t.used + {a.uuid}) else t, a)
  }

  /** After a promotion of this generation Ready catches up; a new generation starts a rollout. */
  function Judge(u: State, a: Around): (r: State)
    requires u.preview.Some? && u.ready.Some?
    ensures SameSpec(u, r)
  {
    if u.rolledOut == Some(RolledOut(PromotionDone, u.generation)) then
      if a.stopsAtReady then u else Prepare(u.(ready := Some(Ready(a.readyFalse, u.generation, false))), a)
    else if u.rolledOut.Some? && u.rolledOut.value.observed == u.generation then Prepare(u, a)
    else if !a.records then u
    else Prepare(Noting(u, Progressing, true), a)
  }

  /** The preview resources other than the Deployment.  Without a live Deployment this is the one pass
      that gets here, so the first of them, the Service of the admin API, is still to be created. */
  function Prepare(u: State, a: Around): (r: State)
    requires u.preview.Some? && u.ready.Some? && u.rolledOut.Some?
    ensures SameSpec(u, r)
  {
    if a.stopsEarly || Live(u.deployments) == [] then Noting(u, RolloutFailed, a.records) else Rollout(u, a)
  }

  /** The preview Deployment: created, scaled, waited for, then promoted. */
  function Rollout(t: State, a: Around): (r: State)
    requires t.preview.Some? && t.ready.Some? && t.rolledOut.Some?
    ensures SameSpec(t, r)
  {
    var down := t.ready.value.observed == t.rolledOut.value.observed;
    var previews := Previews(t.deployments);
    if a.stopsAtDeployment || |previews| > 1 then Noting(t, RolloutFailed, a.records)
    else if previews == [] then
      t.(deployments := t.deployments + [Deployment(t.clock, t.preview.value, false, down, 0, 0, 0)],
          clock := t.clock + 1)
    else if previews[0].scaledDown != down && a.updates then
      t.(deployments := Updated(t.deployments, previews[0], previews[0].(scaledDown := down)))
    else Await(t, previews[0], a)
  }

  function Await(t: State, preview: Deployment, a: Around): (r: State)
    requires t.preview.Some? && t.rolledOut.Some?
    ensures SameSpec(t, r)
  {
    if preview.scaledDown then Noting(t, WaitingForChange, a.records)
    else if !Available(preview) then Noting(t, Progressing, a.records)
    else if t.strategy.UnknownStrategy? then t
    else if !Allowed(t) then Noting(t, AwaitingPromotion, a.records)
    else Begin(t, a)
  }

  /** A promotion that failed before keeps that reason until it succeeds. */
  function Begin(t: State, a: Around): (r: State)
    requires t.preview.Some? && t.rolledOut.Some?
    ensures SameSpec(t, r)
  {
    if t.rolledOut.value.reason.PromotionFailed? then Promote(t, a)
    else if !a.records then t
    else Promote(Noting(t, PromotionInProgress, true), a)
  }

  function Promote(t: State, a: Around): (r: State)
    requires t.preview.Some?
    ensures SameSpec(t, r)
  {
    if t.selector != t.preview
        then (if a.overrideFails then Noting(t, PromotionFailed, a.records) else t.(selector := t.preview))
    else if a.listFails then t
    else if t.ingress != t.preview || t.admin != t.preview then Delegate(t, a.delegate)
    else Finish(t, a)
  }

  /** Both live Services select the preview: label, clear, reset, reduce. */
  function Finish(t: State, a: Around): (r: State)
    requires t.preview.Some?
    ensures SameSpec(t, r)
  {
    var matching := WithSelector(t.deployments, t.preview.value);
    if matching == [] then Noting(t, PromotionFailed, a.records)
    else
      var picked := matching[if a.pick < |matching| then a.pick else 0];
      if !picked.live && a.labelFails then Noting(t, PromotionFailed, a.records)
      else
        var u := t.(deployments := Updated(t.deployments, picked, picked.(live := true)));
        if a.clearFails then u
        else if a.rolledOutFails then u.(preview := None)
        else
          var v := Noting(u.(preview := None), PromotionDone, true);
          if a.resetFails then v else v.(promoteWhenReady := false, deployments := Reduced(v.deployments, a.deletions))
  }

  /** reduceLiveDeployments, when the deletion after the first `n` fails: all but the newest live go. */
  function Reduced(ds: seq<Deployment>, n: nat): seq<Deployment> {
    var live := Live(ds);
    if |live| < 2 then ds else Without(ds, live[..if n < |live| - 1 then n else |live| - 1])
  }

  // ---------------------------------------------------------------- runs

  datatype Event =
    | Reconciles(a: Around)
    | StatusChanges(index: nat, replicas: nat, available: nat, ready: nat)
    | SpecChanges(blueGreen: bool, strategy: Strategy)
    | Annotates(promoteWhenReady: bool)

  /** UUIDs are never drawn twice. */
  predicate Enabled(s: State, e: Event) {
    match e
    case Reconciles(a) => a.uuid !in s.used && a.delegate.uuid !in s.used && a.uuid != a.delegate.uuid
    case StatusChanges(i, _, _, _) => i < |s.deployments|
    case SpecChanges(_, _) => true
    case Annotates(_) => true
  }

  /** Every change of the spec makes a new generation. */
  function Step(s: State, e: Event): State
    requires Enabled(s, e)
  {
    match e
    case Reconciles(a) => Pass(s, a)
    case StatusChanges(i, replicas, available, ready) =>
      s.(deployments := s.deployments[i := s.deployments[i].(replicas := replicas, available := available,
          ready := ready)])
    case SpecChanges(blueGreen, strategy) => s.(blueGreen := blueGreen, strategy := strategy,
        generation := s.generation + 1)
    case Annotates(promote) => s.(promoteWhenReady := promote)
  }

  predicate IsRun(s: State, es: seq<Event>)
    decreases |es|
  {
    es != [] ==> Enabled(s, es[0]) && IsRun(Step(s, es[0]), es[1..])
  }

  /** The strategy stays BlueGreen. */
  predicate StaysBlueGreen(es: seq<Event>) {
    forall e :: e in es && e.SpecChanges? ==> e.blueGreen
  }

  predicate Initial(s: State) {
    && s.selector.None? && s.preview.None? && s.admin.None? && s.ingress.None?
    && s.deployments == [] && s.used == {} && s.ready.None? && s.rolledOut.None? && s.blueGreen
  }

  // ---------------------------------------------------------------- the controllers as they run

  lemma {:induction false} WithoutOneMore(ds: seq<Deployment>, gone: seq<Deployment>, d: Deployment)
    ensures Without(Without(ds, gone), [d]) == Without(ds, gone + [d])
  {
    if ds != [] {
      var n := |ds| - 1;
      WithoutOneMore(ds[..n], gone, d);
      assert ds[n] in gone + [d] <==> ds[n] in gone || ds[n] == d;
      if ds[n] !in gone {
        var w := Without(ds, gone);
        assert w[..|w| - 1] == Without(ds[..n], gone) && w[|w| - 1] == ds[n];
        assert ds[n] in [d] <==> ds[n] == d;
      } else {
        assert Without(ds, gone) == Without(ds[..n], gone);
        assert Without(ds, gone + [d]) == Without(ds[..n], gone + [d]);
      }
    }
  }

  lemma {:induction false} WithoutNone(ds: seq<Deployment>)
    ensures Without(ds, []) == ds
  {
    if ds != [] {
      WithoutNone(ds[..|ds| - 1]);
    }
  }

  lemma {:induction false} ReducedBy(ds: seq<Deployment>, n: nat)
    ensures var live := Live(ds);
      if |live| < 2 then Reduced(ds, n) == ds
      else Reduced(ds, n) == Without(ds, live[..if n < |live| - 1 then n else |live| - 1])
  {
    hide Live, Without;
  }

  class BlueGreenReconciler {
    var selector: Option<nat>
    var preview: Option<nat>
    var admin: Option<nat>
    var ingress: Option<nat>
    var deployments: seq<Deployment>
    var blueGreen: bool
    var strategy: Strategy
    var promoteWhenReady: bool
    var generation: nat
    var ready: Option<Ready>
    var rolledOut: Option<RolledOut>
    var clock: nat
    var used: set<nat>

    constructor (s: State)
      ensures Abs() == s
    {
      selector, preview, admin, ingress := s.selector, s.preview, s.admin, s.ingress;
      deployments, blueGreen, strategy, promoteWhenReady := s.deployments, s.blueGreen, s.strategy, s.promoteWhenReady;
      generation, ready, rolledOut, clock, used := s.generation, s.ready, s.rolledOut, s.clock, s.used;
    }

    function Abs(): State
      reads this
    {
      State(selector, preview, admin, ingress, deployments, blueGreen, strategy, promoteWhenReady, generation, ready,
          rolledOut, clock, used)
    }

    /** The plain controller's Reconcile, as far as selectors, Deployments and readiness go. */
    method DelegateReconcile(d: DelegateAround)
      modifies this
      ensures Abs() == Delegate(old(Abs()), d)
    {
      if ready.None? {
        if !d.readyInitFails {
          ready := Some(Ready(true, generation, false));
        }
        return;
      }
      if selector.None? {
        if d.initFails {
          return;
        }
        selector, used := Some(d.uuid), used + {d.uuid};
      }
      if d.stopsFirst {
        return;
      }
      if admin != selector {
        if !d.adminFails {
          admin := selector;
        }
        return;
      }
      if ingress != selector {
        if !d.ingressFails {
          ingress := selector;
        }
        return;
      }
      if d.stopsNext || d.deployFails {
        return;
      }
      EnsureLiveDeployment(d);
    }

    /** The Deployment step of the plain controller, and the Ready condition after it. */
    method EnsureLiveDeployment(d: DelegateAround)
      modifies this
      ensures Abs() == LiveDeployment(old(Abs()), d)
    {
      var live := Live(deployments);
      if |live| == 0 {
        deployments := deployments + [Deployment(clock, selector.GetOr(0), true, false, 0, 0, 0)];
        clock := clock + 1;
        return;
      }
      if |live| > 1 {
        deployments := Without(deployments, Without(live, [Kept(live)]));
        return;
      }
      if !d.stopsLast {
        ready := Some(Ready(d.readyFalse, generation, false));
      }
    }

    method EnsureRolledOutCondition(reason: Reason, recorded: bool)
      modifies this`rolledOut
      ensures Abs() == Noting(old(Abs()), reason, recorded)
    {
      if recorded {
        rolledOut := Some(RolledOut(reason, generation));
      }
    }

    /** ensurePreviewSelectorOverridesLive. */
    method EnsurePreviewSelectorOverridesLive(fails: bool) returns (updated: bool, ok: bool)
      modifies this
      ensures updated <==> old(selector) != old(preview) && !fails
      ensures ok <==> old(selector) == old(preview) || !fails
      ensures Abs() == if updated then old(Abs()).(selector := old(preview)) else old(Abs())
    {
      if selector == preview {
        return false, true;
      }
      if fails {
        return false, false;
      }
      selector := preview;
      return true, true;
    }

    /** waitForLiveServiceSelectorsPropagation, for both Services. */
    method LiveServicesSelect(expected: Option<nat>) returns (ok: bool)
      ensures ok <==> ingress == expected && admin == expected
    {
      if ingress != expected {
        return false;
      }
      ok := admin == expected;
    }

    /** ensurePreviewDeploymentLabeledLive: of the Deployments with the selector, listed in any order,
        the first one is labelled. */
    method EnsurePreviewDeploymentLabeledLive(x: nat, pick: nat, fails: bool) returns (ok: bool)
      modifies this
      ensures var matching := WithSelector(old(deployments), x);
        if matching == [] then !ok && Abs() == old(Abs())
        else
          var picked := matching[if pick < |matching| then pick else 0];
          && (ok <==> picked.live || !fails)
          && Abs() == if ok then old(Abs()).(deployments := Updated(old(deployments), picked, picked.(live := true)))
               else old(Abs())
    {
      var matching := WithSelector(deployments, x);
      if |matching| == 0 {
        return false;
      }
      var deployment := matching[if pick < |matching| then pick else 0];
      if deployment.live {
        assert Updated(deployments, deployment, deployment.(live := true)) == deployments;
        return true;
      }
      if fails {
        return false;
      }
      deployments := Updated(deployments, deployment, deployment.(live := true));
      ok := true;
    }

    /** reduceLiveDeployments: deletes all live Deployments but the newest, oldest first. */
    method ReduceLiveDeployments(deletions: nat)
      modifies this
      ensures Abs() == old(Abs()).(deployments := Reduced(old(deployments), deletions))
    {
      hide Live, Without, Reduced;
      var live := Live(deployments);
      ReducedBy(deployments, deletions);
      if |live| < 2 {
        return;
      }
      ghost var was := deployments;
      WithoutNone(was);
      assert live[..0] == [];
      for k := 0 to |live| - 1
        invariant k <= deletions && deployments == Without(was, live[..k])
        invariant Abs() == old(Abs()).(deployments := deployments)
      {
        if k == deletions {
          return;
        }
        WithoutOneMore(was, live[..k], live[k]);
        assert live[..k + 1] == live[..k] + [live[k]];
        deployments := Without(deployments, [live[k]]);
      }
    }

    /** prunePreviewSubresources, followed by the plain controller. */
    method PruneAndDelegate(a: Around)
      modifies this
      ensures Abs() == Withdraw(old(Abs()), a)
    {
      if a.pruneFails {
        return;
      }
      deployments := Live(deployments);
      if preview.Some? || rolledOut.Some? {
        if a.pruneStatusFails {
          return;
        }
        preview, rolledOut := None, None;
      }
      DelegateReconcile(a.delegate);
    }

    method Reconcile(a: Around)
      modifies this
      ensures Abs() == Pass(old(Abs()), a)
    {
      if !blueGreen {
        PruneAndDelegate(a);
        return;
      }
      if ShouldDelegate(Abs()) {
        DelegateReconcile(a.delegate);
        return;
      }
      ReconcileRollout(a);
    }

    /** The part of Reconcile that follows when it does not delegate. */
    method ReconcileRollout(a: Around)
      requires ready.Some?
      modifies this
      ensures Abs() == Advance(old(Abs()), a)
    {
      var live := Live(deployments);
      if a.stopsAtReadyCheck || |live| > 1 {
        return;
      }
      if |live| == 0 {
        if ready.value.noDeployment {
          return;
        }
        ready := Some(Ready(true, ready.value.observed, true));
      } else {
        ready := Some(Ready(a.liveReadyFalse, ready.value.observed, false));
      }
      if preview.None? {
        if a.initFails {
          return;
        }
        preview, used := Some(a.uuid), used + {a.uuid};
      }
      JudgeConditions(a);
    }

    /** The part of Reconcile that compares the conditions with the generation. */
    method JudgeConditions(a: Around)
      requires preview.Some? && ready.Some?
      modifies this
      ensures Abs() == Judge(old(Abs()), a)
    {
      if rolledOut == Some(RolledOut(PromotionDone, generation)) {
        if a.stopsAtReady {
          return;
        }
        ready := Some(Ready(a.readyFalse, generation, false));
      } else if rolledOut.None? || rolledOut.value.observed != generation {
        if !a.records {
          return;
        }
        EnsureRolledOutCondition(Progressing, true);
      }
      PreparePreview(a);
    }

    /** The preview resources other than the Deployment, any of which may stop the pass. */
    method PreparePreview(a: Around)
      requires preview.Some? && ready.Some? && rolledOut.Some?
      modifies this
      ensures Abs() == Prepare(old(Abs()), a)
    {
      if a.stopsEarly || Live(deployments) == [] {
        EnsureRolledOutCondition(RolloutFailed, a.records);
        return;
      }
      ReconcilePreview(a);
    }

    /** The part of Reconcile that starts with the preview Deployment. */
    method ReconcilePreview(a: Around)
      requires preview.Some? && ready.Some? && rolledOut.Some?
      modifies this
      ensures Abs() == Rollout(old(Abs()), a)
    {
      var down := ready.value.observed == rolledOut.value.observed;
      var previews := Previews(deployments);
      if a.stopsAtDeployment || |previews| > 1 {
        EnsureRolledOutCondition(RolloutFailed, a.records);
        return;
      }
      if |previews| == 0 {
        deployments := deployments + [Deployment(clock, preview.value, false, down, 0, 0, 0)];
        clock := clock + 1;
        return;
      }
      var deployment := previews[0];
      if deployment.scaledDown != down && a.updates {
        deployments := Updated(deployments, deployment, deployment.(scaledDown := down));
        return;
      }
      AwaitPreview(deployment, a);
    }

    /** The part of Reconcile that waits for the preview Deployment and for leave to promote it. */
    method AwaitPreview(deployment: Deployment, a: Around)
      requires preview.Some? && rolledOut.Some?
      modifies this
      ensures Abs() == Await(old(Abs()), deployment, a)
    {
      if deployment.scaledDown {
        EnsureRolledOutCondition(WaitingForChange, a.records);
        return;
      }
      if !Available(deployment) {
        EnsureRolledOutCondition(Progressing, a.records);
        return;
      }
      if strategy.UnknownStrategy? {
        return;
      }
      if !Allowed(Abs()) {
        EnsureRolledOutCondition(AwaitingPromotion, a.records);
        return;
      }
      if !rolledOut.value.reason.PromotionFailed? {
        if !a.records {
          return;
        }
        EnsureRolledOutCondition(PromotionInProgress, true);
      }
      PromotePreview(a);
    }

    /** The part of Reconcile that promotes an available preview. */
    method PromotePreview(a: Around)
      requires preview.Some?
      modifies this
      ensures Abs() == Promote(old(Abs()), a)
    {
      var updated, ok := EnsurePreviewSelectorOverridesLive(a.overrideFails);
      if !ok {
        EnsureRolledOutCondition(PromotionFailed, a.records);
        return;
      }
      if updated || a.listFails {
        return;
      }
      var propagated := LiveServicesSelect(preview);
      if !propagated {
        DelegateReconcile(a.delegate);
        return;
      }
      FinishPromotion(a);
    }

    /** The part of Reconcile that follows once both live Services select the preview. */
    method FinishPromotion(a: Around)
      requires preview.Some?
      modifies this
      ensures Abs() == Finish(old(Abs()), a)
    {
      var labeled := EnsurePreviewDeploymentLabeledLive(preview.value, a.pick, a.labelFails);
      if !labeled {
        EnsureRolledOutCondition(PromotionFailed, a.records);
        return;
      }
      if a.clearFails {
        return;
      }
      preview := None;
      if a.rolledOutFails {
        return;
      }
      EnsureRolledOutCondition(PromotionDone, true);
      if a.resetFails {
        return;
      }
      promoteWhenReady := false;
      ReduceLiveDeployments(a.deletions);
    }
  }
}
