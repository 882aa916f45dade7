/**
 What happens to the live Services when the BlueGreen strategy is taken out of the spec: the preview is
 pruned, and the plain controller may meet two live Deployments.
 */
module BlueGreenRemoval {
  import opened Wrappers
  import opened BlueGreen
  import opened BlueGreenSafety

  /** The plain controller gets as far as the Deployments: both Services are up to date and nothing stops it. */
  predicate ReachesDeployments(s: State, d: DelegateAround) {
    s.ready.Some? && s.admin == s.selector && s.ingress == s.selector && !d.stopsFirst && !d.stopsNext && !d.deployFails
  }

  predicate StatusKept(s: State, a: Around) {
    (s.preview.Some? || s.rolledOut.Some?) && a.pruneStatusFails
  }

  lemma {:induction false} ReducedToKept(ds: seq<Deployment>)
    requires |ds| == 2 && ds[0].live && ds[1].live && ds[0] != ds[1]
    ensures Live(ds) == ds && Without(ds, Without(ds, [Kept(ds)])) == [Kept(ds)]
  {
    assert ds[..1][..0] == [] && ds == ds[..1] + [ds[1]];
    assert Live(ds[..1]) == ds[..1];
    var kept := Kept(ds);
    assert kept == ds[0] || kept == ds[1];
    if kept == ds[0] {
      assert Without(ds[..1], [kept]) == [] && Without(ds, [kept]) == [ds[1]];
      assert Without(ds[..1], [ds[1]]) == [ds[0]];
    } else {
      assert Without(ds[..1], [kept]) == [ds[0]] && Without(ds, [kept]) == [ds[0]];
      assert Without(ds[..1], [ds[0]]) == [];
    }
  }

  lemma {:induction false} PrunedList(s: State)
    requires Inv(s) && s.deployments != []
    ensures Live(s.deployments) == if HasPreview(s) then [s.deployments[0]] else s.deployments
  {
    Lists(s);
  }

  lemma {:induction false} LiveDeploymentLeaves(t: State, d: DelegateAround)
    requires Shape(t) && !HasPreview(t) && t.deployments != []
    ensures var u := LiveDeployment(t, d);
      u.selector == t.selector && u.deployments == if TwoLive(t) then [Kept(t.deployments)] else t.deployments
  {
    hide Live, Previews, Without, Kept;
    Lists(t);
    if TwoLive(t) {
      ReducedToKept(t.deployments);
    }
  }

  /** What the plain controller leaves of the Deployments. */
  lemma {:induction false} DelegateLeaves(t: State, d: DelegateAround)
    requires Shape(t) && !HasPreview(t) && t.deployments != [] && t.selector.Some?
    ensures var u := Delegate(t, d);
      && u.selector == t.selector
      && u.deployments == if TwoLive(t) && ReachesDeployments(t, d) then [Kept(t.deployments)] else t.deployments
  {
    LiveDeploymentLeaves(t, d);
    hide LiveDeployment, Shape, Kept, TwoLive, HasPreview;
    if ReachesDeployments(t, d) {
      assert Delegate(t, d) == LiveDeployment(t, d);
    } else {
      NotReached(t, d);
    }
  }

  lemma {:induction false} NotReached(t: State, d: DelegateAround)
    requires t.selector.Some? && !ReachesDeployments(t, d)
    ensures Delegate(t, d).deployments == t.deployments && Delegate(t, d).selector == t.selector
  {
    hide LiveDeployment;
  }

  /** The second Deployment has no more available replicas than the first, and if as many, no more ready ones. */
  predicate NotAhead(ds: seq<Deployment>)
    requires |ds| == 2
  {
    ds[1].available < ds[0].available || (ds[1].available == ds[0].available && ds[1].ready <= ds[0].ready)
  }

  /** The pass after the removal of the strategy, whatever happens around it, leaves the live selector
      without a Deployment if and only if
      - there is a preview Deployment, and the live selector has already been switched to it; or
      - two Deployments are live and are reduced, and the promoted one is not ahead of the old one. */
  lemma {:induction false} RemovalStrandsIff(s: State, a: Around)
    requires Inv(s) && !s.blueGreen && s.deployments != [] && !a.pruneFails
    ensures !Serves(Pass(s, a).deployments, s.selector) <==>
      || (HasPreview(s) && s.selector == s.preview)
      || (TwoLive(s) && !StatusKept(s, a) && ReachesDeployments(s, a.delegate)
           && NotAhead(s.deployments))
  {
    WithdrawLeaves(s, a);
    Selected(s);
    if TwoLive(s) {
      KeptOfTwo(s.deployments);
      RankOfTwo(s);
    }
    hide Inv, Pass, Kept, ReachesDeployments, StatusKept, Better, NotAhead;
    ServesOne(s.deployments[0], s.selector);
    ServesOne(s.deployments[|s.deployments| - 1], s.selector);
  }

  lemma {:induction false} KeptOfTwo(ds: seq<Deployment>)
    requires |ds| == 2
    ensures Kept(ds) == if Better(ds[1], ds[0]) then ds[1] else ds[0]
  {
    assert ds[..1] == [ds[0]] && Kept([ds[0]]) == ds[0];
  }

  lemma {:induction false} RankOfTwo(s: State)
    requires Shape(s) && |s.deployments| == 2
    ensures Better(s.deployments[1], s.deployments[0]) <==> !NotAhead(s.deployments)
  {
  }

  lemma {:induction false} ServesOne(d: Deployment, x: Option<nat>)
    ensures Serves([d], x) <==> x == Some(d.selector)
  {
    assert [d][0] == d;
  }

  /** What a pass without the strategy leaves of the Deployments. */
  lemma {:induction false} WithdrawLeaves(s: State, a: Around)
    requires Inv(s) && !s.blueGreen && s.deployments != [] && !a.pruneFails
    ensures Pass(s, a).deployments ==
      if HasPreview(s) then [s.deployments[0]]
      else if TwoLive(s) && !StatusKept(s, a) && ReachesDeployments(s, a.delegate) then [Kept(s.deployments)]
      else s.deployments
  {
    hide Inv, Live, Delegate, Kept;
    PrunedList(s);
    var ds := Live(s.deployments);
    var v := s.(deployments := ds, preview := None, rolledOut := None);
    Pruned(s, v);
    DelegateLeaves(v, a.delegate);
  }

  lemma {:induction false} Pruned(s: State, v: State)
    requires Inv(s) && s.deployments != []
    requires v == s.(deployments := if HasPreview(s) then [s.deployments[0]] else s.deployments,
                     preview := None, rolledOut := None)
    ensures Shape(v) && !HasPreview(v) && v.selector.Some? && (HasPreview(s) ==> !TwoLive(v))
        && (!HasPreview(s) ==> (TwoLive(v) <==> TwoLive(s)))
  {
  }

  lemma {:induction false} Selected(s: State)
    requires Inv(s) && s.deployments != []
    ensures Serves(s.deployments, s.selector)
    ensures HasPreview(s) ==> (s.selector == Some(s.deployments[0].selector) <==> s.selector != s.preview)
    ensures TwoLive(s) ==>
          s.selector == Some(s.deployments[1].selector) && s.deployments[0].selector != s.deployments[1].selector
  {
  }

  /** A pass of the plain controller around which nothing goes wrong. */
  function Quiet(uuid: nat): DelegateAround {
    DelegateAround(uuid, false, false, false, false, false, false, false, false, false)
  }

  /** A pass around which nothing goes wrong, except perhaps the reset of the annotation. */
  function Plain(uuid: nat, resetFails: bool): (e: Event)
    ensures e.Reconciles?
  {
    Reconciles(Around(Quiet(uuid + 1), false, false, false, false, uuid, false, false, false,
                      false, false, true, true, false, false, 0, false, false, false, resetFails, 1))
  }

  lemma {:induction false} ListedOne(d: Deployment)
    requires d.live
    ensures Live([d]) == [d] && Previews([d]) == []
  {
    assert [d][..0] == [];
  }

  /** One such pass over a single live Deployment brings the next Service up to date. */
  lemma {:induction false} OneLivePass(s: State, uuid: nat)
    requires !s.blueGreen && s.ready.Some? && s.selector.Some? && |s.deployments| == 1 && s.deployments[0].live
    ensures var t := Pass(s, Plain(uuid, false).a);
      && t.deployments == s.deployments && t.selector == s.selector && !t.blueGreen && t.ready.Some?
      && t.preview.None? && t.rolledOut.None?
      && t.admin == s.selector && t.ingress == if s.admin != s.selector then s.ingress else s.selector
  {
    ListedOne(s.deployments[0]);
    assert s.deployments == [s.deployments[0]];
    var t := s.(preview := None, rolledOut := None);
    hide Live, Delegate;
    assert s.(deployments := s.deployments) == s;
    assert Pass(s, Plain(uuid, false).a) == Delegate(t, Quiet(uuid + 1));
    QuietDelegate(t, uuid + 1);
  }

  lemma {:induction false} QuietDelegate(t: State, uuid: nat)
    requires t.ready.Some? && t.selector.Some? && t.deployments != [] && Live(t.deployments) == t.deployments
        && |t.deployments| == 1
    ensures var u := Delegate(t, Quiet(uuid));
      && u.deployments == t.deployments && u.selector == t.selector && u.blueGreen == t.blueGreen && u.ready.Some?
      && u.preview == t.preview && u.rolledOut == t.rolledOut
      && u.admin == t.selector && u.ingress == if t.admin != t.selector then t.ingress else t.selector
  {
    var u := LiveDeployment(t, Quiet(uuid));
    assert u == t.(ready := Some(Ready(false, t.generation, false))) by {
      hide Live;
    }
    hide LiveDeployment, Live;
  }

  /** The strategy is removed, and three passes follow around which nothing goes wrong. */
  function Removed(s: State, strategy: Strategy, x: nat, y: nat, z: nat): State {
    Pass(Pass(Pass(s.(blueGreen := false, strategy := strategy, generation := s.generation + 1), Plain(x, false).a),
        Plain(y, false).a), Plain(z, false).a)
  }

  /** Removing the strategy ends with the live Services selecting no Deployment if and only if a
      promotion is half way: the selector is switched and the preview not labelled live yet, or both
      Deployments are live and the promoted one is not ahead of the old one. */
  lemma {:induction false} RemovalIsAnOutageIff(s: State, strategy: Strategy, x: nat, y: nat, z: nat)
    requires Inv(s) && s.blueGreen && s.deployments != []
    ensures var t := Removed(s, strategy, x, y, z);
      && |t.deployments| == 1 && t.admin == t.ingress == s.selector && t.preview.None? && t.rolledOut.None?
      && (!Serves(t.deployments, t.admin) <==>
            (HasPreview(s) && s.selector == s.preview) || (TwoLive(s) && NotAhead(s.deployments)))
  {
    var r := s.(blueGreen := false, strategy := strategy, generation := s.generation + 1);
    StepInv(s, SpecChanges(false, strategy));
    assert r == Step(s, SpecChanges(false, strategy));
    RemovalStrandsIff(r, Plain(x, false).a);
    FirstPass(r, x);
    hide Inv, Pass, Serves, Better, NotAhead;
    var t1 := Pass(r, Plain(x, false).a);
    OneLivePass(t1, y);
    OneLivePass(Pass(t1, Plain(y, false).a), z);
  }

  lemma {:induction false} FirstPass(s: State, uuid: nat)
    requires Inv(s) && !s.blueGreen && s.deployments != []
    ensures var t := Pass(s, Plain(uuid, false).a);
      && t.selector == s.selector && s.selector.Some? && !t.blueGreen && t.ready.Some?
      && |t.deployments| == 1 && t.deployments[0].live
      && (TwoLive(s) ==> ReachesDeployments(s, Plain(uuid, false).a.delegate))
  {
    WithdrawLeaves(s, Plain(uuid, false).a);
    Settled(s);
    if TwoLive(s) {
      KeptOfTwo(s.deployments);
    }
    FirstPassStatus(s, uuid);
    hide Pass, Kept, Inv;
  }

  lemma {:induction false} FirstPassStatus(s: State, uuid: nat)
    requires s.ready.Some? && s.selector.Some? && !s.blueGreen
    ensures var t := Pass(s, Plain(uuid, false).a); t.selector == s.selector && !t.blueGreen && t.ready.Some?
  {
    var v := s.(deployments := Live(s.deployments), preview := None, rolledOut := None);
    DelegateStatus(v, Quiet(uuid + 1));
    hide Live, Delegate;
    assert Pass(s, Plain(uuid, false).a) == Delegate(v, Quiet(uuid + 1));
  }

  lemma {:induction false} DelegateStatus(t: State, d: DelegateAround)
    requires t.ready.Some? && t.selector.Some?
    ensures var u := Delegate(t, d); u.ready.Some? && u.selector == t.selector && u.blueGreen == t.blueGreen
  {
    hide Live, Kept, Without;
  }

  lemma {:induction false} Settled(s: State)
    requires Inv(s) && s.deployments != []
    ensures s.selector.Some? && s.ready.Some? && s.deployments[0].live && |s.deployments| <= 2
    ensures TwoLive(s) ==> s.admin == s.selector && s.ingress == s.selector && s.deployments[1].live
  {
  }

  // ---------------------------------------------------------------- a run that gets there

  const FIRST := Deployment(0, 3, true, false, 1, 1, 1)
  const SECOND := Deployment(1, 14, false, false, 1, 1, 1)
  const PROMOTED := Deployment(1, 14, true, false, 1, 1, 1)

  function At(selector: Option<nat>, preview: Option<nat>, admin: Option<nat>, ingress: Option<nat>,
              ds: seq<Deployment>, blueGreen: bool,
              generation: nat, ready: Option<Ready>, rolledOut: Option<RolledOut>, clock: nat, used: set<nat>): State {
    State(selector, preview, admin, ingress, ds, blueGreen, BreakBeforePromotion, true, generation, ready, rolledOut,
        clock, used)
  }

  /** From an empty start to the pass that promotes. */
  function EventAt(k: nat): Event
    requires k < 13
  {
    match k
    case 5 => StatusChanges(0, 1, 1, 1)
    case 6 => SpecChanges(true, BreakBeforePromotion)
    case 8 => StatusChanges(1, 1, 1, 1)
    case 12 => Plain(24, true)
    case _ => Plain(2 * k, false)
  }

  function StateAt(k: nat): State
    requires k <= 13
  {
    var ready := Some(Ready(false, 1, false));
    match k
    case 0 => At(None, None, None, None, [], true, 1, None, None, 0, {})
    case 1 => At(None, None, None, None, [], true, 1, Some(Ready(true, 1, false)), None, 0, {})
    case 2 => At(Some(3), None, Some(3), None, [], true, 1, Some(Ready(true, 1, false)), None, 0, {3})
    case 3 => At(Some(3), None, Some(3), Some(3), [], true, 1, Some(Ready(true, 1, false)), None, 0, {3})
    case 4 => At(Some(3), None, Some(3), Some(3), [FIRST.(replicas := 0, available := 0, ready := 0)], true, 1,
        Some(Ready(true, 1, false)), None, 1, {3})
    case 5 => At(Some(3), None, Some(3), Some(3), [FIRST.(replicas := 0, available := 0, ready := 0)], true, 1, ready,
        None, 1, {3})
    case 6 => At(Some(3), None, Some(3), Some(3), [FIRST], true, 1, ready, None, 1, {3})
    case 7 => At(Some(3), None, Some(3), Some(3), [FIRST], true, 2, ready, None, 1, {3})
    case 8 => At(Some(3), Some(14), Some(3), Some(3), [FIRST, SECOND.(replicas := 0, available := 0, ready := 0)],
        true, 2, ready,
                 Some(RolledOut(Progressing, 2)), 2, {3, 14})
    case 9 => At(Some(3), Some(14), Some(3), Some(3), [FIRST, SECOND], true, 2, ready,
        Some(RolledOut(Progressing, 2)), 2, {3, 14})
    case 10 => At(Some(14), Some(14), Some(3), Some(3), [FIRST, SECOND], true, 2, ready,
        Some(RolledOut(PromotionInProgress, 2)), 2, {3, 14})
    case 11 => At(Some(14), Some(14), Some(14), Some(3), [FIRST, SECOND], true, 2, ready,
        Some(RolledOut(PromotionInProgress, 2)), 2, {3, 14})
    case 12 => At(Some(14), Some(14), Some(14), Some(14), [FIRST, SECOND], true, 2, ready,
        Some(RolledOut(PromotionInProgress, 2)), 2, {3, 14})
    case 13 => At(Some(14), None, Some(14), Some(14), [FIRST, PROMOTED], true, 2, ready,
        Some(RolledOut(PromotionDone, 2)), 2, {3, 14})
  }

  predicate Leads(s: State, e: Event, t: State) {
    Enabled(s, e) && Step(s, e) == t
  }

  lemma {:induction false} ListedTwo(d: Deployment, e: Deployment)
    requires d.live && !e.live
    ensures Live([d, e]) == [d] && Previews([d, e]) == [e]
  {
    ListedOne(d);
    assert [d, e][..1] == [d];
  }

  lemma {:induction false} Installs(k: nat)
    requires k < 7
    ensures Leads(StateAt(k), EventAt(k), StateAt(k + 1))
  {
    assert Live([]) == [];
    ListedOne(FIRST.(replicas := 0, available := 0, ready := 0));
    hide Live, Previews, Advance;
  }

  lemma {:induction false} RollsOut()
    ensures Leads(StateAt(7), EventAt(7), StateAt(8)) && Leads(StateAt(8), EventAt(8), StateAt(9))
  {
    ListedOne(FIRST);
    hide Live, Previews, Await, Delegate;
  }

  lemma {:induction false} Switches()
    ensures Leads(StateAt(9), EventAt(9), StateAt(10))
  {
    ListedTwo(FIRST, SECOND);
    hide Live, Previews, Delegate, Finish;
  }

  lemma {:induction false} Propagates(k: nat)
    requires k == 10 || k == 11
    ensures Leads(StateAt(k), EventAt(k), StateAt(k + 1))
  {
    ListedTwo(FIRST, SECOND);
    hide Live, Previews, LiveDeployment, Finish;
  }

  lemma {:induction false} SecondSelected()
    ensures WithSelector([FIRST, SECOND], 14) == [SECOND]
  {
    hide Live;
    assert [FIRST, SECOND][..1] == [FIRST] && [FIRST][..0] == [];
    assert WithSelector([FIRST], 14) == [];
  }

  /** The reset of the annotation fails, so the old Deployment stays. */
  lemma {:induction false} Promotes()
    ensures Leads(StateAt(12), EventAt(12), StateAt(13))
  {
    hide Live, Previews, WithSelector, Delegate, Reduced;
    ListedTwo(FIRST, SECOND);
    SecondSelected();
    assert Updated([FIRST, SECOND], SECOND, PROMOTED) == [FIRST, PROMOTED];
    hide Updated;
    assert Advance(StateAt(12), EventAt(12).a) == Promote(StateAt(12), EventAt(12).a);
  }

  function Prefix(k: nat): seq<Event>
    requires k <= 13
  {
    if k == 0 then [] else Prefix(k - 1) + [EventAt(k - 1)]
  }

  lemma {:induction false} RunOn(s: State, es: seq<Event>, e: Event)
    requires IsRun(s, es) && Enabled(After(s, es), e)
    ensures IsRun(s, es + [e]) && After(s, es + [e]) == Step(After(s, es), e)
    decreases |es|
  {
    hide Step, Enabled;
    if es == [] {
      assert [] + [e] == [e] && [e][1..] == [];
    } else {
      assert (es + [e])[1..] == es[1..] + [e];
      RunOn(Step(s, es[0]), es[1..], e);
    }
  }

  lemma {:induction false} Reaches(k: nat)
    requires k <= 13
    ensures IsRun(StateAt(0), Prefix(k)) && After(StateAt(0), Prefix(k)) == StateAt(k)
  {
    hide Leads, StateAt, EventAt;
    if k > 0 {
      Reaches(k - 1);
      OneMore(k - 1);
      RunOn(StateAt(0), Prefix(k - 1), EventAt(k - 1));
    }
  }

  lemma {:induction false} OneMore(k: nat)
    requires k < 13
    ensures Enabled(StateAt(k), EventAt(k)) && Step(StateAt(k), EventAt(k)) == StateAt(k + 1)
  {
    hide StateAt, EventAt, Enabled, Step;
    if k < 7 {
      Installs(k);
    } else if k < 9 {
      RollsOut();
    } else if k == 9 {
      Switches();
    } else if k < 12 {
      Propagates(k);
    } else {
      Promotes();
    }
  }

  /** Both kinds of half-finished promotion are reached from an empty start under the BlueGreen strategy,
      with at most one failing request. */
  lemma {:induction false} OutagesAreReachable()
    ensures Initial(StateAt(0))
    ensures forall k :: 0 <= k <= 13 ==> IsRun(StateAt(0), Prefix(k)) && After(StateAt(0), Prefix(k)) == StateAt(k)
    ensures HasPreview(StateAt(10)) && StateAt(10).selector == StateAt(10).preview
    ensures TwoLive(StateAt(13)) && NotAhead(StateAt(13).deployments)
  {
    forall k | 0 <= k <= 13 ensures IsRun(StateAt(0), Prefix(k)) && After(StateAt(0), Prefix(k)) == StateAt(k) {
      Reaches(k);
    }
  }
}
