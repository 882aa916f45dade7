/**
 The race between one Route that gives up a shared Kong resource and the other Routes that
 write the resource's hybrid-routes annotation at the same time.
 */
module OrphanRace {
  import opened Wrappers
  import opened Strings
  import opened Annotations
  import opened HybridState
  import opened Naming

  /** The entries of a list that name a Route: trimmed and not blank. */
  function Names(parts: seq<string>): seq<string> {
    if parts == [] then []
    else if TrimSpace(parts[0]) == "" then Names(parts[1..])
    else [TrimSpace(parts[0])] + Names(parts[1..])
  }

  /** GetRoutesWithKind: the Routes one annotation names. */
  function RoutesIn(anns: AnnotationMap, key: string): seq<string> {
    Names(Entries(Read(anns, key)))
  }

  predicate ContainsRoute(anns: AnnotationMap, key: string, ref: string) {
    Read(anns, key) != "" && exists e :: e in Entries(Read(anns, key)) && TrimSpace(e) == ref
  }

  /** The entries that do not match `ref` after trimming. */
  function NotMatching(parts: seq<string>, ref: string): seq<string> {
    if parts == [] then []
    else if TrimSpace(parts[0]) == ref then NotMatching(parts[1..], ref)
    else [parts[0]] + NotMatching(parts[1..], ref)
  }

  /** RemoveRouteFromAnnotation. */
  function WithoutRoute(anns: AnnotationMap, key: string, ref: string): AnnotationMap {
    if !ContainsRoute(anns, key, ref) then anns
    else
      var rest := NotMatching(Entries(Read(anns, key)), ref);
      if rest == [] then anns - {key} else anns[key := Join(rest, ',')]
  }

  /** What the orphan handler decides on the copy it read. */
  datatype Decision = LeaveAlone | Detach(anns: AnnotationMap) | DeleteIt

  function Decide(anns: AnnotationMap, key: string, ref: string): Decision {
    if !ContainsRoute(anns, key, ref) then LeaveAlone
    else
      var rest := WithoutRoute(anns, key, ref);
      if RoutesIn(rest, key) != [] then Detach(rest) else DeleteIt
  }

  /** Where the Route's own cleanup is; `rv` is the version its decision was made on. */
  datatype Phase = Idle | Detaching(rv: nat, anns: AnnotationMap) | Deleting(rv: nat)

  /** The resource's versions (None: it does not exist), oldest first; the index is the resource version. */
  datatype State = State(history: seq<Option<AnnotationMap>>, phase: Phase)

  datatype Event =
    | OthersWrite(anns: Option<AnnotationMap>)
    | Reads(rv: nat)
    | CommitDetach
    | CommitDelete
    | Refused

  function Server(s: State): Option<AnnotationMap>
    requires |s.history| > 0
  {
    s.history[|s.history| - 1]
  }

  predicate Enabled(s: State, e: Event)
    requires |s.history| > 0
  {
    match e
    case OthersWrite(_) => true
    case Reads(rv) => s.phase.Idle? && rv < |s.history| && s.history[rv].Some?
    case CommitDetach => s.phase.Detaching? && s.phase.rv == |s.history| - 1 && Server(s).Some?
    case CommitDelete => s.phase.Deleting? && s.phase.rv == |s.history| - 1 && Server(s).Some?
    case Refused => !s.phase.Idle?
  }

  /** The Route is recorded under `key` as `ref`.  A read may return any version, however stale;
      a write is refused unless nothing was written since the version it is based on. */
  function Step(s: State, e: Event, key: string, ref: string): State
    requires |s.history| > 0 && Enabled(s, e)
  {
    match e
    case OthersWrite(anns) => s.(history := s.history + [anns])
    case Reads(rv) =>
      (match Decide(s.history[rv].value, key, ref)
       case LeaveAlone => s
       case Detach(anns) => s.(phase := Detaching(rv, anns))
       case DeleteIt => s.(phase := Deleting(rv)))
    case CommitDetach => State(s.history + [Some(s.phase.anns)], Idle)
    case CommitDelete => State(s.history + [None], Idle)
    case Refused => s.(phase := Idle)
  }

  predicate IsRun(s: State, es: seq<Event>, key: string, ref: string)
    decreases |es|
  {
    |s.history| > 0 && (es != [] ==> Enabled(s, es[0]) && IsRun(Step(s, es[0], key, ref), es[1..], key, ref))
  }

  function After(s: State, es: seq<Event>, key: string, ref: string): (t: State)
    requires IsRun(s, es, key, ref)
    ensures |t.history| > 0
    decreases |es|
  {
    if es == [] then s else After(Step(s, es[0], key, ref), es[1..], key, ref)
  }

  /** The decision held by the cleanup is the one for the version it names. */
  predicate Inv(s: State, key: string, ref: string) {
    match s.phase
    case Idle => true
    case Detaching(rv, anns) => rv < |s.history| && s.history[rv].Some?
        && Decide(s.history[rv].value, key, ref) == Detach(anns)
    case Deleting(rv) => rv < |s.history| && s.history[rv].Some? && Decide(s.history[rv].value, key, ref) == DeleteIt
  }

  lemma {:induction false} RunInv(s: State, es: seq<Event>, key: string, ref: string)
    requires IsRun(s, es, key, ref) && Inv(s, key, ref)
    ensures Inv(After(s, es, key, ref), key, ref)
    decreases |es|
  {
    if es != [] {
      RunInv(Step(s, es[0], key, ref), es[1..], key, ref);
    }
  }

  lemma {:induction false} NamesOf(parts: seq<string>, r: string)
    ensures r in Names(parts) <==> r != "" && exists e :: e in parts && TrimSpace(e) == r
  {
    if parts != [] {
      NamesOf(parts[1..], r);
      assert parts[0] in parts && forall e :: e in parts <==> e == parts[0] || e in parts[1..];
      if r == TrimSpace(parts[0]) {
      } else if r in Names(parts[1..]) {
        assert exists e :: e in parts[1..] && TrimSpace(e) == r;
      }
    }
  }

  lemma {:induction false} NotMatchingEntries(parts: seq<string>, ref: string)
    ensures forall e :: e in NotMatching(parts, ref) <==> e in parts && TrimSpace(e) != ref
  {
    if parts != [] {
      NotMatchingEntries(parts[1..], ref);
      assert forall e :: e in parts <==> e == parts[0] || e in parts[1..];
    }
  }

  /** Removing a Route's entry removes that Route and no other. */
  lemma {:induction false} DetachKeepsOthers(anns: AnnotationMap, key: string, ref: string, r: string)
    requires ref != ""
    ensures r in RoutesIn(WithoutRoute(anns, key, ref), key) <==> r in RoutesIn(anns, key) && r != ref
    ensures WithoutRoute(anns, key, ref) - {key} == anns - {key}
  {
    var parts := Entries(Read(anns, key));
    NamesOf(parts, r);
    if ContainsRoute(anns, key, ref) {
      var rest := NotMatching(parts, ref);
      NotMatchingEntries(parts, ref);
      SplitPartsFree(Read(anns, key), ',');
      NamesOf(rest, r);
      if rest == [] {
        assert Entries("") == [""];
        assert Names([""]) == [];
      } else {
        SplitJoin(rest, ',');
      }
    } else {
      NamesOf(parts, ref);
    }
  }

  lemma {:induction false} NothingInEmpty(e: string)
    ensures e in Split("", ',') <==> e == ""
    ensures TrimSpace("") == ""
  {
    assert Split("", ',') == [""];
  }

  lemma {:induction false} EntryFound(anns: AnnotationMap, key: string, ref: string) returns (e: string)
    requires ContainsRoute(anns, key, ref)
    ensures key in anns && e in Split(anns[key], ',') && TrimSpace(e) == ref
  {
    e :| e in Entries(Read(anns, key)) && TrimSpace(e) == ref;
  }

  lemma {:induction false} EntryCounts(anns: AnnotationMap, key: string, ref: string, e: string)
    requires ref != "" && e in Split(if key in anns then anns[key] else "", ',') && TrimSpace(e) == ref
    ensures ContainsRoute(anns, key, ref)
  {
    NothingInEmpty(e);
    assert e in Entries(Read(anns, key));
  }

  lemma {:induction false} ContainsIff(anns: AnnotationMap, key: string, ref: string)
    requires ref != ""
    ensures ContainsRoute(anns, key, ref) <==>
      exists e :: e in Split(if key in anns then anns[key] else "", ',') && TrimSpace(e) == ref
  {
    hide ContainsRoute, Split, TrimSpace;
    if e :| e in Split(if key in anns then anns[key] else "", ',') && TrimSpace(e) == ref {
      EntryCounts(anns, key, ref, e);
    }
    if ContainsRoute(anns, key, ref) {
      var e := EntryFound(anns, key, ref);
    }
  }

  lemma {:induction false} DetachedEntries(anns: AnnotationMap, key: string, ref: string, e: string)
    requires ref != "" && ContainsRoute(anns, key, ref) && key in WithoutRoute(anns, key, ref)
    ensures key in anns
    ensures e in Split(WithoutRoute(anns, key, ref)[key], ',') <==> e in Split(anns[key], ',') && TrimSpace(e) != ref
  {
    hide Split, TrimSpace, NotMatching;
    var parts := Split(Read(anns, key), ',');
    var rest := NotMatching(parts, ref);
    NotMatchingEntries(parts, ref);
    SplitPartsFree(Read(anns, key), ',');
    if rest != [] {
      assert forall p :: p in rest ==> ',' !in p;
      SplitJoin(rest, ',');
    }
  }

  lemma {:induction false} OthersNamed(anns: AnnotationMap, key: string, ref: string)
    requires ref != ""
    ensures RoutesIn(WithoutRoute(anns, key, ref), key) == [] <==> forall r :: r in RoutesIn(anns, key) ==> r == ref
  {
    var after := RoutesIn(WithoutRoute(anns, key, ref), key);
    forall r ensures r in after <==> r in RoutesIn(anns, key) && r != ref {
      DetachKeepsOthers(anns, key, ref, r);
    }
    hide RoutesIn, WithoutRoute;
    if after != [] {
      assert after[0] in after;
    }
  }

  /** What the handler decides, on the entries of the annotation it read: it leaves a resource alone that does
      not name this Route, deletes one that names no other, and takes its own entries, and no others, out of
      the list of any other, whose other annotations it does not touch. */
  lemma {:induction false} DecidesIff(anns: AnnotationMap, key: string, ref: string)
    requires ref != ""
    ensures var parts := Split(if key in anns then anns[key] else "", ',');
      var mine := exists e :: e in parts && TrimSpace(e) == ref;
      var others := exists e :: e in parts && TrimSpace(e) != ref && TrimSpace(e) != "";
      match Decide(anns, key, ref)
      case LeaveAlone => !mine
      case DeleteIt => mine && !others
      case Detach(after) =>
        && mine && others && key in after && after - {key} == anns - {key}
        && forall e :: e in Split(after[key], ',') <==> e in parts && TrimSpace(e) != ref
  {
    hide Split, TrimSpace, NotMatching, RoutesIn, WithoutRoute, ContainsRoute;
    var parts := Split(if key in anns then anns[key] else "", ',');
    ContainsIff(anns, key, ref);
    if ContainsRoute(anns, key, ref) {
      OthersNamed(anns, key, ref);
      var after := WithoutRoute(anns, key, ref);
      Named(anns, key, ref);
      DetachKeepsOthers(anns, key, ref, ref);
      if RoutesIn(after, key) != [] {
        Listed(after, key, RoutesIn(after, key)[0]);
        forall e ensures e in Split(after[key], ',') <==> e in parts && TrimSpace(e) != ref {
          DetachedEntries(anns, key, ref, e);
        }
      }
    }
  }

  lemma {:induction false} Named(anns: AnnotationMap, key: string, ref: string)
    ensures var parts := Split(if key in anns then anns[key] else "", ',');
      (forall r :: r in RoutesIn(anns, key) ==> r == ref) <==>
        forall e :: e in parts ==> TrimSpace(e) == ref || TrimSpace(e) == ""
  {
    hide Split, TrimSpace, Names;
    var parts := Split(if key in anns then anns[key] else "", ',');
    assert RoutesIn(anns, key) == Names(parts);
    OnlyNamed(parts, ref);
  }

  lemma {:induction false} OnlyNamed(parts: seq<string>, ref: string)
    ensures (forall r :: r in Names(parts) ==> r == ref) <==>
      forall e :: e in parts ==> TrimSpace(e) == ref || TrimSpace(e) == ""
  {
    hide TrimSpace, Names;
    if forall r :: r in Names(parts) ==> r == ref {
      forall e | e in parts ensures TrimSpace(e) == ref || TrimSpace(e) == "" {
        NamesOf(parts, TrimSpace(e));
      }
    } else {
      var r :| r in Names(parts) && r != ref;
      NamesOf(parts, r);
    }
  }

  /** Under every interleaving with other writers, the delete commits only if at that moment the
      annotation of the Route's own kind names this Route and no other. */
  lemma {:induction false} DeleteCommitsOnlyIfLast(s: State, es: seq<Event>, key: string, ref: string)
    requires s.phase.Idle? && ref != "" && IsRun(s, es, key, ref)
    requires Enabled(After(s, es, key, ref), CommitDelete)
    ensures var anns := Server(After(s, es, key, ref)).value;
      ref in RoutesIn(anns, key) && forall r :: r in RoutesIn(anns, key) ==> r == ref
  {
    RunInv(s, es, key, ref);
    var anns := Server(After(s, es, key, ref)).value;
    NamesOf(Entries(Read(anns, key)), ref);
    forall r | r in RoutesIn(anns, key) ensures r == ref {
      DetachKeepsOthers(anns, key, ref, r);
    }
  }

  /** Under every interleaving, detaching loses no other Route: at the moment it commits the server's
      annotation named exactly the Routes it names afterwards, and this one. */
  lemma {:induction false} DetachCommitsLoseNobody(s: State, es: seq<Event>, key: string, ref: string, r: string)
    requires s.phase.Idle? && ref != "" && IsRun(s, es, key, ref)
    requires Enabled(After(s, es, key, ref), CommitDetach)
    ensures var before := After(s, es, key, ref);
      var after := Step(before, CommitDetach, key, ref);
      r in RoutesIn(Server(after).value, key) <==> r in RoutesIn(Server(before).value, key) && r != ref
  {
    RunInv(s, es, key, ref);
    DetachKeepsOthers(Server(After(s, es, key, ref)).value, key, ref, r);
  }

  // ---------------------------------------------------------------- Routes of other kinds

  function AnnotationKey(kind: RouteKind): string {
    match kind
    case HTTPRoute => "gateway-operator.konghq.com/hybrid-routes"
    case GRPCRoute => "gateway-operator.konghq.com/hybrid-routes-GRPCRoute"
    case TLSRoute => "gateway-operator.konghq.com/hybrid-routes-TLSRoute"
    case TCPRoute => "gateway-operator.konghq.com/hybrid-routes-TCPRoute"
    case UDPRoute => "gateway-operator.konghq.com/hybrid-routes-UDPRoute"
  }

  /** Routes of this kind generate the object. */
  ghost predicate Generates(h: Hashing, kind: Kind, name: string, route: RouteKind) {
    exists n :: NamedAs(kind, n) && NameOf(h, route, n) == name
  }

  function ReadLive(o: Option<AnnotationMap>, key: string): string {
    match o case None => "" case Some(anns) => Read(anns, key)
  }

  /** A write for a Route that generates the object: of the lists of Routes it touches only the one of
      its own kind. */
  ghost predicate ByOperator(h: Hashing, kind: Kind, name: string, s: State, e: Event)
    requires |s.history| > 0
  {
    e.OthersWrite? && e.anns.Some? ==>
      exists route :: Generates(h, kind, name, route)
        && forall k :: k != route ==> Read(e.anns.value, AnnotationKey(k)) == ReadLive(Server(s), AnnotationKey(k))
  }

  /** Nobody but the operator writes the object. */
  ghost predicate OperatorRun(h: Hashing, kind: Kind, name: string, s: State, es: seq<Event>, key: string, ref: string)
    requires IsRun(s, es, key, ref)
    decreases |es|
  {
    es != [] ==>
      && ByOperator(h, kind, name, s, es[0])
      && OperatorRun(h, kind, name, Step(s, es[0], key, ref), es[1..], key, ref)
  }

  /** Whatever kind of Route a version names generates the object. */
  ghost predicate NamedByGenerators(h: Hashing, kind: Kind, name: string, s: State) {
    forall i, k :: 0 <= i < |s.history| && ReadLive(s.history[i], AnnotationKey(k)) != "" ==>
          Generates(h, kind, name, k)
  }

  lemma {:induction false} StepNames(h: Hashing, kind: Kind, name: string, s: State, e: Event, mine: RouteKind,
                                     ref: string)
    requires |s.history| > 0 && Enabled(s, e) && Inv(s, AnnotationKey(mine), ref) && ref != ""
    requires NamedByGenerators(h, kind, name, s) && ByOperator(h, kind, name, s, e)
    ensures NamedByGenerators(h, kind, name, Step(s, e, AnnotationKey(mine), ref))
  {
    hide Generates, AnnotationKey, RoutesIn, ContainsRoute, WithoutRoute;
    var key := AnnotationKey(mine);
    var t := Step(s, e, key, ref);
    forall i, k | 0 <= i < |t.history| && ReadLive(t.history[i], AnnotationKey(k)) != ""
      ensures Generates(h, kind, name, k)
    {
      var n := |s.history|;
      if i < n {
        assert t.history[i] == s.history[i];
      } else if e.OthersWrite? {
        assert ReadLive(s.history[n - 1], AnnotationKey(k)) != "" ==> Generates(h, kind, name, k);
      } else {
        assert e.CommitDetach?;
        var anns := s.history[n - 1].value;
        assert t.history[i] == Some(WithoutRoute(anns, key, ref));
        assert ReadLive(s.history[n - 1], AnnotationKey(k)) != "" by {
          DetachReads(anns, key, ref, AnnotationKey(k));
        }
      }
    }
  }

  /** A detach takes a list away or shortens it. */
  lemma {:induction false} DetachReads(anns: AnnotationMap, key: string, ref: string, k: string)
    ensures Read(WithoutRoute(anns, key, ref), k) != "" ==> Read(anns, k) != ""
  {
    if k != key {
    } else if ContainsRoute(anns, key, ref) {
    }
  }

  lemma {:induction false} RunNames(h: Hashing, kind: Kind, name: string, s: State, es: seq<Event>, mine: RouteKind,
                                    ref: string)
    requires ref != "" && IsRun(s, es, AnnotationKey(mine), ref)
        && OperatorRun(h, kind, name, s, es, AnnotationKey(mine), ref)
    requires Inv(s, AnnotationKey(mine), ref) && NamedByGenerators(h, kind, name, s)
    ensures NamedByGenerators(h, kind, name, After(s, es, AnnotationKey(mine), ref))
    decreases |es|
  {
    if es != [] {
      StepNames(h, kind, name, s, es[0], mine, ref);
      assert Inv(Step(s, es[0], AnnotationKey(mine), ref), AnnotationKey(mine), ref);
      RunNames(h, kind, name, Step(s, es[0], AnnotationKey(mine), ref), es[1..], mine, ref);
    }
  }

  /** The cleanup looks at the list of its own kind only, and that is enough: Routes of two kinds never
      generate the same object, so when a delete commits no other Route of any kind is named. */
  lemma {:induction false} DeleteLeavesNoRoute(h: Hashing, kind: Kind, name: string, es: seq<Event>, mine: RouteKind,
                                               ref: string)
    requires NoCollisions(h) && ref != "" && IsRun(State([None], Idle), es, AnnotationKey(mine), ref)
    requires OperatorRun(h, kind, name, State([None], Idle), es, AnnotationKey(mine), ref)
    requires Enabled(After(State([None], Idle), es, AnnotationKey(mine), ref), CommitDelete)
    ensures var anns := Server(After(State([None], Idle), es, AnnotationKey(mine), ref)).value;
      forall k, r :: r in RoutesIn(anns, AnnotationKey(k)) ==> k == mine && r == ref
  {
    var s, key := State([None], Idle), AnnotationKey(mine);
    RunNames(h, kind, name, s, es, mine, ref);
    DeleteCommitsOnlyIfLast(s, es, key, ref);
    var t := After(s, es, key, ref);
    var anns := Server(t).value;
    Listed(anns, key, ref);
    assert Server(t) == t.history[|t.history| - 1];
    hide RoutesIn, Inv, IsRun, After, Enabled, OperatorRun, Generates, NoCollisions, AnnotationKey;
    NamedOnlyBy(h, kind, name, t, mine, ref);
  }

  /** With one list of Routes naming only this one, the lists of the other kinds are empty. */
  lemma {:induction false} NamedOnlyBy(h: Hashing, kind: Kind, name: string, t: State, mine: RouteKind, ref: string)
    requires NoCollisions(h) && |t.history| > 0 && Server(t).Some? && NamedByGenerators(h, kind, name, t)
    requires Read(Server(t).value, AnnotationKey(mine)) != ""
    requires forall r :: r in RoutesIn(Server(t).value, AnnotationKey(mine)) ==> r == ref
    ensures forall k, r :: r in RoutesIn(Server(t).value, AnnotationKey(k)) ==> k == mine && r == ref
  {
    hide RoutesIn, Generates, NoCollisions, AnnotationKey;
    var anns := Server(t).value;
    assert Generates(h, kind, name, mine);
    forall k, r | r in RoutesIn(anns, AnnotationKey(k)) ensures k == mine && r == ref {
      Listed(anns, AnnotationKey(k), r);
      assert Generates(h, kind, name, k);
      OneGenerator(h, kind, name, mine, k);
    }
  }

  lemma {:induction false} Listed(anns: AnnotationMap, key: string, r: string)
    ensures r in RoutesIn(anns, key) ==> Read(anns, key) != ""
  {
    assert Entries("") == [""] && Names([""]) == [];
  }

  lemma {:induction false} OneGenerator(h: Hashing, kind: Kind, name: string, a: RouteKind, b: RouteKind)
    requires NoCollisions(h) && Generates(h, kind, name, a) && Generates(h, kind, name, b)
    ensures a == b
  {
    hide NameOf, NamedAs;
    var m :| NamedAs(kind, m) && NameOf(h, a, m) == name;
    var n :| NamedAs(kind, n) && NameOf(h, b, n) == name;
    if a != b {
      KindsShareNoName(h, kind, a, m, b, n);
    }
  }
}
