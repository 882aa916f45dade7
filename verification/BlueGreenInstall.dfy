/**
 Whether a DataPlane is ever installed under the BlueGreen strategy: it is, unless its spec changes between
 the first pass and the creation of its first Deployment.
 */
module BlueGreenInstall {
  import opened Wrappers
  import opened BlueGreen
  import opened BlueGreenSafety
  import opened BlueGreenRemoval

  /** Nothing is installed, and the spec is newer than the Ready condition that was initialised for it. */
  predicate EditedBeforeInstalled(s: State) {
    && s.deployments == [] && s.ready.Some? && s.ready.value.observed < s.generation
    && (s.rolledOut.Some? ==> !s.rolledOut.value.reason.PromotionDone?)
  }

  /** The guard refuses the plain controller, and the rollout stops for want of a live Deployment. */
  lemma {:induction false} EditedPass(s: State, a: Around)
    requires s.blueGreen && EditedBeforeInstalled(s)
    ensures var t := Pass(s, a);
      EditedBeforeInstalled(t) && t.blueGreen && t.admin == s.admin && t.ingress == s.ingress
          && t.selector == s.selector
  {
    assert Live(s.deployments) == [];
    hide Live, Rollout, Delegate;
  }

  lemma {:induction false} EditedStep(s: State, e: Event)
    requires s.blueGreen && EditedBeforeInstalled(s) && Enabled(s, e) && (e.SpecChanges? ==> e.blueGreen)
    ensures var t := Step(s, e);
      EditedBeforeInstalled(t) && t.blueGreen && t.admin == s.admin && t.ingress == s.ingress
          && t.selector == s.selector
  {
    hide Pass;
    if e.Reconciles? {
      EditedPass(s, e.a);
    }
  }

  /** From then on no run under the strategy installs a Deployment or brings a Service up to date. */
  lemma {:induction false} EditedInstallIsStuck(s: State, es: seq<Event>)
    requires s.blueGreen && EditedBeforeInstalled(s) && IsRun(s, es) && StaysBlueGreen(es)
    ensures var t := After(s, es);
      t.deployments == [] && t.admin == s.admin && t.ingress == s.ingress && t.selector == s.selector
    decreases |es|
  {
    hide Step, Enabled;
    if es != [] {
      assert es[0] in es && forall e :: e in es[1..] ==> e in es;
      EditedStep(s, es[0]);
      EditedInstallIsStuck(Step(s, es[0]), es[1..]);
    }
  }

  /** How many passes there are to go before the one that creates the Deployment. */
  function Missing(s: State): nat {
    (if s.ready.None? then 1 else 0)
    + (if s.selector.None? || s.admin != s.selector then 1 else 0)
    + (if s.selector.None? || s.ingress != s.selector then 1 else 0)
  }

  predicate Installable(s: State) {
    Inv(s) && s.blueGreen && s.deployments == [] && (s.ready.Some? ==> s.ready.value.observed == s.generation)
  }

  predicate Below(used: set<nat>, x: nat) {
    forall n :: n in used ==> n < x
  }

  /** What the plain controller does next. */
  lemma {:induction false} InstallStep(s: State, d: DelegateAround, x: nat)
    requires s.deployments == [] && d == Quiet(x) && (s.selector.None? ==> s.admin.None? && s.ingress.None?)
    ensures var t := Delegate(s, d);
      && t.used <= s.used + {x}
      && if Missing(s) == 0 then t.deployments != []
         else t.deployments == [] && Missing(t) < Missing(s)
              && t.ready == if s.ready.None? then Some(Ready(true, s.generation, false)) else s.ready
  {
    assert Live(s.deployments) == [];
    hide Live, Without, Kept;
  }

  lemma {:induction false} InstallPass(s: State, x: nat)
    requires Installable(s) && Below(s.used, x)
    ensures var e := Plain(x, false);
      && Enabled(s, e)
      && var t := Step(s, e);
      && Below(t.used, x + 2)
      && if Missing(s) == 0 then t.deployments != [] else Installable(t) && Missing(t) < Missing(s)
  {
    var e := Plain(x, false);
    assert Enabled(s, e);
    StepInv(s, e);
    StepStays(s, e);
    Guarded(s);
    hide Inv, Delegate, Missing, ShouldDelegate;
    assert Step(s, e) == Delegate(s, Quiet(x + 1));
    InstallStep(s, Quiet(x + 1), x + 1);
    hide Step;
    assert SameSpec(s, Delegate(s, Quiet(x + 1)));
  }

  lemma {:induction false} Guarded(s: State)
    requires Installable(s)
    ensures ShouldDelegate(s) && (s.selector.None? ==> s.admin.None? && s.ingress.None?)
  {
  }

  lemma {:induction false} Installs(s: State, x: nat) returns (es: seq<Event>)
    requires Installable(s) && Below(s.used, x)
    ensures IsRun(s, es) && StaysBlueGreen(es) && After(s, es).deployments != []
    decreases Missing(s)
  {
    var e := Plain(x, false);
    InstallPass(s, x);
    var t := Step(s, e);
    hide Installable, Step, Enabled, Missing, Below;
    if t.deployments != [] {
      es := [e];
      assert [e][1..] == [];
    } else {
      var rest := Installs(t, x + 2);
      es := [e] + rest;
      assert es[1..] == rest;
    }
  }

  lemma {:induction false} Pick<T>(s: set<T>) returns (o: Option<T>)
    ensures match o case None => s == {} case Some(x) => x in s
  {
    if x :| x in s {
      o := Some(x);
    } else {
      o := None;
    }
  }

  lemma {:induction false} AboveAll(used: set<nat>) returns (x: nat)
    ensures Below(used, x)
  {
    x := 0;
    var o := Pick(used);
    if o.Some? {
      var y := AboveAll(used - {o.value});
      x := if y > o.value then y else o.value + 1;
      forall n | n in used ensures n < x {
        assert n == o.value || n in used - {o.value};
      }
    }
  }

  ghost predicate CanBeInstalled(s: State) {
    exists es :: IsRun(s, es) && StaysBlueGreen(es) && After(s, es).deployments != []
  }

  /** In every state that a run under the strategy reaches without a Deployment, one can still be installed
      if and only if the spec has not changed since the Ready condition was initialised. */
  lemma {:induction false} InstalledUnlessEditedIff(s: State, es: seq<Event>)
    requires Initial(s) && IsRun(s, es) && StaysBlueGreen(es) && After(s, es).deployments == []
    ensures var t := After(s, es);
      CanBeInstalled(t) <==> t.ready.None? || t.ready.value.observed == t.generation
  {
    InitialInv(s);
    RunInv(s, es);
    var t := After(s, es);
    assert Conditions(t);
    if t.ready.None? || t.ready.value.observed == t.generation {
      assert Installable(t);
      var x := AboveAll(t.used);
      var more := Installs(t, x);
    } else {
      assert EditedBeforeInstalled(t);
      forall more | IsRun(t, more) && StaysBlueGreen(more) ensures After(t, more).deployments == [] {
        EditedInstallIsStuck(t, more);
      }
    }
  }

  /** An edit in between is all it takes: the first pass, and then a change of the spec. */
  lemma {:induction false} EditedInstallIsReachable(strategy: Strategy)
    ensures var es := [Plain(0, false), SpecChanges(true, strategy)];
      && Initial(StateAt(0)) && IsRun(StateAt(0), es) && StaysBlueGreen(es)
      && EditedBeforeInstalled(After(StateAt(0), es)) && After(StateAt(0), es).admin.None?
           && After(StateAt(0), es).ingress.None?
  {
    var e, f := Plain(0, false), SpecChanges(true, strategy);
    BlueGreenRemoval.Installs(0);
    assert [e, f][1..] == [f] && [f][1..] == [];
    assert Step(StateAt(0), e) == StateAt(1);
    hide Pass;
    var t := Step(StateAt(1), f);
    assert IsRun(t, []);
    assert IsRun(StateAt(1), [f]);
    assert After(StateAt(1), [f]) == t;
  }
}
