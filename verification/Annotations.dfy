/**
 Comma-separated lists kept in annotations: the hybrid-routes annotation that records which
 Routes share a Kong resource, and the plugin lists of a Service.
 A missing annotation map (nil) and an empty one are the same value here.
 */
module Annotations {
  import opened Wrappers
  import opened Strings

  type AnnotationMap = map<string, string>

  /** An object whose annotations are edited in place. */
  class KubeObject {
    var annotations: AnnotationMap

    constructor (annotations: AnnotationMap)
      ensures this.annotations == annotations
    {
      this.annotations := annotations;
    }
  }

  /** A Go map read: the value, or "" when the key is missing. */
  function Read(anns: AnnotationMap, key: string): string {
    if key in anns then anns[key] else ""
  }

  function Entries(list: string): seq<string> {
    Split(list, ',')
  }

  // ---------------------------------------------------------------- hybrid routes

  predicate HybridRouteAnnotationContains(anns: AnnotationMap, key: string, routeRef: string) {
    |anns| > 0 && Contains("," + Read(anns, key) + ",", "," + routeRef + ",")
  }

  /** The annotation value after recording `routeRef` in `current`. */
  function Merged(current: string, routeRef: string): string {
    if Contains("," + current + ",", "," + routeRef + ",") then current
    else if current != "" then current + "," + routeRef
    else routeRef
  }

  /** Recording a Route adds it and nothing else, keeps every other Route at its place, and is idempotent. */
  lemma {:induction false} MergeKeepsOtherRoutes(current: string, routeRef: string)
    requires ',' !in routeRef
    ensures routeRef in Entries(Merged(current, routeRef))
    ensures current == ""
        || Entries(Merged(current, routeRef)) ==
        (if routeRef in Entries(current) then Entries(current) else Entries(current) + [routeRef])
    ensures forall e ::
        e != "" ==> (e in Entries(Merged(current, routeRef)) <==> e in Entries(current) || e == routeRef)
    ensures Merged(Merged(current, routeRef), routeRef) == Merged(current, routeRef)
  {
    DelimitedSearch(current, routeRef, ',');
    SplitFree(routeRef, ',');
    SplitConcat(current, routeRef, ',');
    assert current + "," + routeRef == current + [','] + routeRef;
    DelimitedSearch(Merged(current, routeRef), routeRef, ',');
  }

  /** Two Routes may record themselves in either order: both are recorded and nothing is lost. */
  lemma {:induction false} MergesCommute(current: string, a: string, b: string, e: string)
    requires ',' !in a && ',' !in b && e != ""
    ensures e in Entries(Merged(Merged(current, a), b)) <==> e in Entries(Merged(Merged(current, b), a))
  {
    MergeKeepsOtherRoutes(current, a);
    MergeKeepsOtherRoutes(current, b);
    MergeKeepsOtherRoutes(Merged(current, a), b);
    MergeKeepsOtherRoutes(Merged(current, b), a);
  }

  /** Seeds the annotation of `desired` from the live object so that no other Route is lost. */
  method MergeHybridRouteAnnotation(desired: KubeObject, existing: KubeObject, key: string, routeRef: string)
    requires ',' !in routeRef
    modifies desired
    ensures desired.annotations ==
        old(desired.annotations)[key := Merged(Read(old(existing.annotations), key), routeRef)]
    ensures forall e :: e != "" && (e == routeRef || e in Entries(Read(old(existing.annotations), key))) ==>
              e in Entries(desired.annotations[key])
  {
    var current := Read(existing.annotations, key);
    var merged := current;
    if !Contains("," + current + ",", "," + routeRef + ",") {
      if current != "" {
        merged := current + "," + routeRef;
      } else {
        merged := routeRef;
      }
    }
    MergeKeepsOtherRoutes(current, routeRef);
    desired.annotations := desired.annotations[key := merged];
  }

  /** Records the Route on a live KongService; says whether a patch is needed. */
  method EnsureHybridRouteAnnotationOnKongService(svc: KubeObject, key: string, routeRef: string)
    returns (patched: bool)
    requires ',' !in routeRef
    modifies svc
    ensures patched <==> routeRef !in Entries(Read(old(svc.annotations), key)) || old(svc.annotations) == map[]
    ensures svc.annotations == if patched
        then old(svc.annotations)[key := Merged(Read(old(svc.annotations), key), routeRef)] else old(svc.annotations)
  {
    DelimitedSearch(Read(svc.annotations, key), routeRef, ',');
    if HybridRouteAnnotationContains(svc.annotations, key, routeRef) {
      return false;
    }
    var current := Read(svc.annotations, key);
    if current != "" {
      svc.annotations := svc.annotations[key := current + "," + routeRef];
    } else {
      svc.annotations := svc.annotations[key := routeRef];
    }
    return true;
  }

  // ---------------------------------------------------------------- plugins of a Service

  /** The entries of a list other than `v`. */
  function Without(parts: seq<string>, v: string): seq<string> {
    if parts == [] then []
    else if parts[0] == v then Without(parts[1..], v)
    else [parts[0]] + Without(parts[1..], v)
  }

  lemma {:induction false} WithoutConcat(a: seq<string>, b: seq<string>, v: string)
    ensures Without(a + b, v) == Without(a, v) + Without(b, v)
  {
    if a == [] {
      assert a + b == b;
    } else {
      WithoutConcat(a[1..], b, v);
      assert (a + b)[1..] == a[1..] + b;
    }
  }

  lemma {:induction false} WithoutAbsent(parts: seq<string>, v: string)
    ensures v !in parts <==> Without(parts, v) == parts
    ensures |Without(parts, v)| <= |parts| && (v in parts ==> |Without(parts, v)| < |parts|)
    ensures v !in Without(parts, v)
  {
    if parts != [] {
      WithoutAbsent(parts[1..], v);
      assert parts == [parts[0]] + parts[1..];
    }
  }

  function EnsureStringInCommaSeparatedString(v: string, list: string): string {
    if v in Entries(list) then list else list + "," + v
  }

  function EnsureStringNotInCommaSeparatedString(v: string, list: string): string {
    if v in Entries(list) then Join(Without(Entries(list), v), ',') else list
  }

  const PLUGINS := "konghq.com/plugins"
  const MANAGED_PLUGINS := "gateway-operator.konghq.com/control-plane-managed-plugins"

  function PluginSet(anns: AnnotationMap, name: string): AnnotationMap {
    var plugins := if PLUGINS !in anns then name else EnsureStringInCommaSeparatedString(name, anns[PLUGINS]);
    var managed := if MANAGED_PLUGINS in anns then EnsureStringInCommaSeparatedString(name, anns[MANAGED_PLUGINS])
        else name;
    anns[PLUGINS := plugins][MANAGED_PLUGINS := managed]
  }

  function PluginUnset(anns: AnnotationMap, name: string): AnnotationMap {
    var step :=
      if PLUGINS !in anns then anns
      else if anns[PLUGINS] == name then anns - {PLUGINS}
      else anns[PLUGINS := Join(Without(Entries(anns[PLUGINS]), name), ',')];
    if MANAGED_PLUGINS !in step then step
    else
      var managed := EnsureStringNotInCommaSeparatedString(name, step[MANAGED_PLUGINS]);
      if managed == "" then step - {MANAGED_PLUGINS} else step[MANAGED_PLUGINS := managed]
  }

  method EnsureKongPluginsAnnotationIsSet(svc: KubeObject, name: string)
    requires ',' !in name
    modifies svc
    ensures svc.annotations == PluginSet(old(svc.annotations), name)
  {
    SplitFree(name, ',');
    if PLUGINS !in svc.annotations {
      svc.annotations := svc.annotations[PLUGINS := name];
    } else if svc.annotations[PLUGINS] != name {
      var ann := svc.annotations[PLUGINS];
      if name !in Split(ann, ',') {
        svc.annotations := svc.annotations[PLUGINS := ann + "," + name];
      }
    }
    if MANAGED_PLUGINS in svc.annotations {
      var ann := EnsureStringInCommaSeparatedString(name, svc.annotations[MANAGED_PLUGINS]);
      svc.annotations := svc.annotations[MANAGED_PLUGINS := ann];
    } else {
      svc.annotations := svc.annotations[MANAGED_PLUGINS := name];
    }
  }

  method EnsureKongPluginsAnnotationIsUnset(svc: KubeObject, name: string)
    modifies svc
    ensures svc.annotations == PluginUnset(old(svc.annotations), name)
  {
    if svc.annotations == map[] {
      return;
    }
    if PLUGINS in svc.annotations {
      var ann := svc.annotations[PLUGINS];
      if ann == name {
        svc.annotations := svc.annotations - {PLUGINS};
      } else {
        svc.annotations := svc.annotations[PLUGINS := Join(Without(Split(ann, ','), name), ',')];
      }
    }
    if MANAGED_PLUGINS in svc.annotations {
      var ann := EnsureStringNotInCommaSeparatedString(name, svc.annotations[MANAGED_PLUGINS]);
      if ann == "" {
        svc.annotations := svc.annotations - {MANAGED_PLUGINS};
      } else {
        svc.annotations := svc.annotations[MANAGED_PLUGINS := ann];
      }
    }
  }

  /** Appending an entry to a list and filtering it out again gives the list back. */
  lemma {:induction false} AppendThenFilter(list: string, name: string)
    requires ',' !in name && name !in Entries(list)
    ensures Join(Without(Entries(list + "," + name), name), ',') == list
    ensures name in Entries(list + "," + name) && list + "," + name != name
  {
    assert list + "," + name == list + [','] + name;
    SplitConcat(list, name, ',');
    SplitFree(name, ',');
    WithoutConcat(Entries(list), [name], name);
    WithoutAbsent(Entries(list), name);
    assert Without([name], name) == [];
    assert Without(Entries(list) + [name], name) == Entries(list);
    JoinSplit(list, ',');
  }

  lemma {:induction false} FilterChanges(list: string, name: string)
    requires name in Entries(list)
    ensures Without(Entries(list), name) == [] || Join(Without(Entries(list), name), ',') != list
  {
    var rest := Without(Entries(list), name);
    WithoutAbsent(Entries(list), name);
    SplitPartsFree(list, ',');
    WithoutSubset(Entries(list), name);
    if rest != [] {
      SplitJoin(rest, ',');
      assert |Split(Join(rest, ','), ',')| < |Entries(list)|;
    }
  }

  lemma {:induction false} WithoutSubset(parts: seq<string>, v: string)
    ensures forall p :: p in Without(parts, v) ==> p in parts
  {
    if parts != [] {
      WithoutSubset(parts[1..], v);
    }
  }

  /** Attaching the plugin and detaching it again restores the Service's annotations exactly when
      neither list named the plugin before and the managed list was not present but empty. */
  lemma {:induction false} SetThenUnsetRestores(anns: AnnotationMap, name: string)
    requires ',' !in name && name != ""
    ensures PluginUnset(PluginSet(anns, name), name) == anns <==>
      && (PLUGINS in anns ==> name !in Entries(anns[PLUGINS]))
      && (MANAGED_PLUGINS in anns ==> name !in Entries(anns[MANAGED_PLUGINS]) && anns[MANAGED_PLUGINS] != "")
  {
    PluginsRestored(anns, name);
    ManagedRestored(anns, name);
    OthersKept(anns, name);
    var result := PluginUnset(PluginSet(anns, name), name);
    hide PluginSet, PluginUnset, Entries;
    if Lookup(result, PLUGINS) == Lookup(anns, PLUGINS)
        && Lookup(result, MANAGED_PLUGINS) == Lookup(anns, MANAGED_PLUGINS) {
      assert result == anns by {
        assert forall k :: Lookup(result, k) == Lookup(anns, k);
        SameLookups(result, anns);
      }
    }
  }

  lemma {:induction false} SameLookups(a: AnnotationMap, b: AnnotationMap)
    requires forall k :: Lookup(a, k) == Lookup(b, k)
    ensures a == b
  {
    forall k ensures k in a <==> k in b {
      assert Lookup(a, k) == Lookup(b, k);
    }
    forall k | k in a ensures a[k] == b[k] {
      assert Lookup(a, k) == Lookup(b, k);
    }
  }

  lemma {:induction false} OthersKept(anns: AnnotationMap, name: string)
    ensures var result := PluginUnset(PluginSet(anns, name), name);
      forall k :: k != PLUGINS && k != MANAGED_PLUGINS ==> Lookup(result, k) == Lookup(anns, k)
  {
    hide Entries;
  }

  function Lookup(anns: AnnotationMap, key: string): Option<string> {
    if key in anns then Some(anns[key]) else None
  }

  lemma {:induction false} PluginsRestored(anns: AnnotationMap, name: string)
    requires ',' !in name && name != ""
    ensures Lookup(PluginUnset(PluginSet(anns, name), name), PLUGINS) == Lookup(anns, PLUGINS) <==>
      (PLUGINS in anns ==> name !in Entries(anns[PLUGINS]))
  {
    SplitFree(name, ',');
    if PLUGINS in anns {
      if name in Entries(anns[PLUGINS]) {
        FilterChanges(anns[PLUGINS], name);
        SplitFree("", ',');
      } else {
        AppendThenFilter(anns[PLUGINS], name);
      }
    }
  }

  lemma {:induction false} ManagedRestored(anns: AnnotationMap, name: string)
    requires ',' !in name && name != ""
    ensures Lookup(PluginUnset(PluginSet(anns, name), name), MANAGED_PLUGINS) == Lookup(anns, MANAGED_PLUGINS) <==>
      (MANAGED_PLUGINS in anns ==> name !in Entries(anns[MANAGED_PLUGINS]) && anns[MANAGED_PLUGINS] != "")
  {
    SplitFree(name, ',');
    if MANAGED_PLUGINS in anns {
      if name in Entries(anns[MANAGED_PLUGINS]) {
        FilterChanges(anns[MANAGED_PLUGINS], name);
      } else {
        AppendThenFilter(anns[MANAGED_PLUGINS], name);
      }
    } else {
      assert Without([name], name) == [];
    }
  }
}
