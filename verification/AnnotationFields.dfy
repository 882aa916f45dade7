/**
 What the operations on annotations do, key by key and entry by entry: attaching a plugin to a Service,
 detaching it, and one pass over the ingress Service.
 */
module AnnotationFields {
  import opened Wrappers
  import opened Strings
  import opened Annotations
  import opened AnnotationMerge

  // ---------------------------------------------------------------- plugins of a Service

  /** `after` are the entries of `before` at the ascending positions `at`, none of them `v`, and as many as
      `before` has entries other than `v`. */
  predicate Picks(before: seq<string>, after: seq<string>, v: string, at: seq<nat>) {
    && |at| == |after| && |after| + multiset(before)[v] == |before|
    && (forall j, k :: 0 <= j < k < |at| ==> at[j] < at[k])
    && (forall k :: 0 <= k < |at| ==> at[k] < |before| && after[k] == before[at[k]] && after[k] != v)
  }

  /** `after` is `before` without `v`: every other entry is kept, as often and in the same order. */
  ghost predicate OthersInOrder(before: seq<string>, after: seq<string>, v: string) {
    exists at :: Picks(before, after, v, at)
  }

  function Shifted(at: seq<nat>): (r: seq<nat>)
    ensures |r| == |at| && forall k :: 0 <= k < |at| ==> r[k] == at[k] + 1
  {
    seq(|at|, (k: nat) requires k < |at| => at[k] + 1)
  }

  lemma {:induction false} WithoutPicks(parts: seq<string>, v: string) returns (at: seq<nat>)
    ensures Picks(parts, Without(parts, v), v, at)
  {
    at := [];
    if parts != [] {
      hide Picks;
      var rest := WithoutPicks(parts[1..], v);
      assert parts == [parts[0]] + parts[1..];
      if parts[0] == v {
        at := Shifted(rest);
        PicksLater(parts[0], parts[1..], Without(parts[1..], v), v, rest);
      } else {
        at := [0] + Shifted(rest);
        PicksFirst(parts[0], parts[1..], Without(parts[1..], v), v, rest);
      }
    } else {
      assert Picks([], [], v, []);
    }
  }

  lemma {:induction false} PicksLater(p: string, parts: seq<string>, after: seq<string>, v: string, rest: seq<nat>)
    requires p == v && Picks(parts, after, v, rest)
    ensures Picks([p] + parts, after, v, Shifted(rest))
  {
    assert forall i :: 0 <= i < |parts| ==> ([p] + parts)[i + 1] == parts[i];
    assert multiset([p] + parts)[v] == multiset(parts)[v] + 1;
  }

  lemma {:induction false} PicksFirst(p: string, parts: seq<string>, after: seq<string>, v: string, rest: seq<nat>)
    requires p != v && Picks(parts, after, v, rest)
    ensures Picks([p] + parts, [p] + after, v, [0] + Shifted(rest))
  {
    hide Shifted;
    var all, at := [p] + parts, [0] + Shifted(rest);
    assert multiset(all)[v] == multiset(parts)[v];
    forall k | 0 <= k < |at|
      ensures at[k] < |all| && ([p] + after)[k] == all[at[k]] && all[at[k]] != v
    {
      if k > 0 {
        assert at[k] == rest[k - 1] + 1;
        assert after[k - 1] == parts[rest[k - 1]] && after[k - 1] != v;
      }
    }
    forall j, k | 0 <= j < k < |at| ensures at[j] < at[k] {
      assert at[k] == rest[k - 1] + 1;
      if j > 0 {
        assert at[j] == rest[j - 1] + 1 && rest[j - 1] < rest[k - 1];
      }
    }
  }

  /** Attaching a plugin: both lists name it afterwards.  A list that was missing holds nothing else, one that
      named it is left alone, any other keeps its entries and gets the plugin at the end; no other
      annotation changes. */
  lemma {:induction false} SetNamesThePlugin(anns: AnnotationMap, name: string, key: string)
    requires ',' !in name
    ensures var r := PluginSet(anns, name);
      if key != "konghq.com/plugins" && key != "gateway-operator.konghq.com/control-plane-managed-plugins" then
        Lookup(r, key) == Lookup(anns, key)
      else
        && key in r && name in Split(r[key], ',')
        && if key !in anns then r[key] == name
           else if name in Split(anns[key], ',') then r[key] == anns[key]
           else Split(r[key], ',') == Split(anns[key], ',') + [name]
  {
    SplitFree(name, ',');
    KeysDiffer();
    if key in anns {
      SplitConcat(anns[key], name, ',');
      assert anns[key] + "," + name == anns[key] + [','] + name;
    }
    hide Split;
  }

  lemma {:induction false} KeysDiffer()
    ensures PLUGINS != MANAGED_PLUGINS
  {
    assert |PLUGINS| == 18 && |MANAGED_PLUGINS| > 18;
  }

  /** Detaching a plugin: each list keeps every other entry, in order.  The plugins annotation goes exactly
      when its whole value was the plugin's name, the managed one exactly when no character is left; no
      other annotation changes. */
  lemma {:induction false} UnsetKeepsTheOthers(anns: AnnotationMap, name: string, key: string)
    returns (rest: seq<string>)
    ensures var r := PluginUnset(anns, name);
      && (key in anns ==> OthersInOrder(Split(anns[key], ','), rest, name))
      && Lookup(r, key) ==
         if key !in anns then None
         else if key == "konghq.com/plugins" then if anns[key] == name then None else Some(Join(rest, ','))
         else if key == "gateway-operator.konghq.com/control-plane-managed-plugins" then
           if Join(rest, ',') == "" then None else Some(Join(rest, ','))
         else Some(anns[key])
  {
    rest := [];
    if key in anns {
      rest := Without(Split(anns[key], ','), name);
      var at := WithoutPicks(Split(anns[key], ','), name);
      UnsetOne(anns, name, key);
    }
    hide Split, Without, Join, OthersInOrder, PluginUnset;
    if key !in anns {
      UnsetNone(anns, name, key);
    }
  }

  lemma {:induction false} UnsetNone(anns: AnnotationMap, name: string, key: string)
    requires key !in anns
    ensures key !in PluginUnset(anns, name)
  {
    hide Split, Without, Join;
  }

  lemma {:induction false} UnsetOne(anns: AnnotationMap, name: string, key: string)
    requires key in anns
    ensures var rest := Without(Split(anns[key], ','), name);
      Lookup(PluginUnset(anns, name), key) ==
        if key == PLUGINS then if anns[key] == name then None else Some(Join(rest, ','))
        else if key == MANAGED_PLUGINS then
          if Join(rest, ',') == "" then None else Some(Join(rest, ','))
        else Some(anns[key])
  {
    KeysDiffer();
    WithoutAbsent(Split(anns[key], ','), name);
    JoinSplit(anns[key], ',');
    hide Split, Without, Join;
  }

  // ---------------------------------------------------------------- one pass over the ingress Service

  /** The annotations the last pass is known to have asked for. */
  function LastAsked(m: AnnotationMap, spec: Spec, dec: string -> Option<AnnotationMap>): AnnotationMap {
    if LAST_APPLIED in m && (m[LAST_APPLIED] != "" || spec.None?) then dec(m[LAST_APPLIED]).GetOr(map[]) else map[]
  }

  /** A pass that does not fail, whatever state the Service is in: what is asked for is set, what was asked
      for last and is not any more goes, the rest stays; and what is asked for is written down. */
  lemma {:induction false} OnePass(m: AnnotationMap, spec: Spec, enc: AnnotationMap -> string,
                                   dec: string -> Option<AnnotationMap>, key: string)
    requires Codec(enc, dec) && Ensured(m, spec, enc, dec).ok
    ensures Lookup(Ensured(m, spec, enc, dec).annotations, key) ==
      if key == "gateway-operator.konghq.com/last-applied-annotations" && spec.Some? then Some(enc(spec.value))
      else if spec.Some? && key in spec.value then Some(spec.value[key])
      else if key in LastAsked(m, spec, dec) then None
      else Lookup(m, key)
  {
    if spec.Some? {
      assert dec(enc(spec.value)) == Some(spec.value);
    }
  }

  /** A pass that does not fail reports an update if and only if some annotation changed. */
  lemma {:induction false} UpdateReportedIff(m: AnnotationMap, spec: Spec, enc: AnnotationMap -> string,
                                             dec: string -> Option<AnnotationMap>)
    requires Codec(enc, dec) && Ensured(m, spec, enc, dec).ok
    ensures var out := Ensured(m, spec, enc, dec); out.updated <==> out.annotations != m
  {
    var generated := Generated(spec, enc);
    hide Ensured, Restored, Generated, Outdated, Differing;
    if m + generated != m {
      MergeShows(m, spec, enc, dec);
    } else {
      Decodes(m, spec, enc, dec);
      if spec.None? && Outdated(spec, m, dec).value * m.Keys != {} {
        RemovalShows(m, spec, enc, dec);
      } else {
        NothingShared(Outdated(spec, m, dec).value, m.Keys);
        NothingToDo(m, spec, enc, dec);
      }
    }
  }

  lemma {:induction false} NothingShared<K>(a: set<K>, b: set<K>)
    requires a == {} || a * b == {}
    ensures a !! b
  {
    forall k | k in a ensures k !in b {
      assert k in b ==> k in a * b;
    }
  }

  lemma {:induction false} RestoredSame(m: AnnotationMap, generated: AnnotationMap)
    requires m + generated == m
    ensures Restored(m, generated) == m
  {
  }

  /** What the metadata merge changes stays changed. */
  lemma {:induction false} MergeShows(m: AnnotationMap, spec: Spec, enc: AnnotationMap -> string,
                                      dec: string -> Option<AnnotationMap>)
    requires Codec(enc, dec) && Ensured(m, spec, enc, dec).ok && m + Generated(spec, enc) != m
    ensures Ensured(m, spec, enc, dec).annotations != m && Ensured(m, spec, enc, dec).updated
  {
    var generated := Generated(spec, enc);
    var k :| k in generated && (k !in m || m[k] != generated[k]);
    OnePass(m, spec, enc, dec, k);
    hide Ensured;
  }

  lemma {:induction false} Decodes(m: AnnotationMap, spec: Spec, enc: AnnotationMap -> string,
                                   dec: string -> Option<AnnotationMap>)
    requires Codec(enc, dec) && Ensured(m, spec, enc, dec).ok && m + Generated(spec, enc) == m
    ensures Outdated(spec, m, dec).Some?
    ensures spec.Some? ==> Outdated(spec, m, dec).value == {}
  {
    RestoredSame(m, Generated(spec, enc));
    if spec.Some? {
      assert dec(enc(spec.value)) == Some(spec.value);
      assert LAST_APPLIED in m + Generated(spec, enc);
    }
  }

  /** What is removed was there. */
  lemma {:induction false} RemovalShows(m: AnnotationMap, spec: Spec, enc: AnnotationMap -> string,
                                        dec: string -> Option<AnnotationMap>)
    requires Codec(enc, dec) && Ensured(m, spec, enc, dec).ok && spec.None?
    requires Outdated(spec, m, dec).Some? && Outdated(spec, m, dec).value * m.Keys != {}
    ensures Ensured(m, spec, enc, dec).annotations != m && Ensured(m, spec, enc, dec).updated
  {
    assert m + Generated(spec, enc) == m;
    RestoredSame(m, Generated(spec, enc));
    var k :| k in Outdated(spec, m, dec).value * m.Keys;
    OnePass(m, spec, enc, dec, k);
  }
}
